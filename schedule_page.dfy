/** The Schedule page (frontend/pages/Schedule.jsx): a form that posts to the
    schedule endpoint and the list of scheduled posts read back from it. */
module SchedulePage {
  import opened Common
  import opened Text

  datatype Field = ContentField | PlatformField | ScheduledTimeField

  datatype ScheduleForm = ScheduleForm(content: string, platform: string, scheduledTime: string)

  const InitialForm := ScheduleForm("", "twitter", "")

  function FieldValue(f: ScheduleForm, field: Field): string
  {
    match field
    case ContentField => f.content
    case PlatformField => f.platform
    case ScheduledTimeField => f.scheduledTime
  }

  /** `{...formData, [name]: value}`. */
  function WithField(f: ScheduleForm, field: Field, value: string): (r: ScheduleForm)
    ensures FieldValue(r, field) == value
    ensures forall g :: g != field ==> FieldValue(r, g) == FieldValue(f, g)
  {
    match field
    case ContentField => f.(content := value)
    case PlatformField => f.(platform := value)
    case ScheduledTimeField => f.(scheduledTime := value)
  }

  class SchedulePanel {
    var formData: ScheduleForm
    var scheduled: seq<Reply>
    var loading: bool

    constructor ()
      ensures formData == InitialForm && scheduled == [] && !loading
    {
      formData := InitialForm;
      scheduled := [];
      loading := false;
    }

    /** `fetchScheduled`: the list is replaced on success and kept on failure. It runs
        on mount and, without being awaited, after each successful submit. */
    method FetchScheduled(outcome: Option<seq<Reply>>)
      modifies this`scheduled
      ensures scheduled == if outcome.Some? then outcome.value else old(scheduled)
    {
      if outcome.Some? {
        scheduled := outcome.value;
      }
    }

    method HandleChange(field: Field, value: string)
      modifies this`formData
      ensures formData == WithField(old(formData), field, value)
    {
      formData := WithField(formData, field, value);
    }

    /** `handleSubmit`: blank text is a no-op; on success the form returns to its
        initial value and a re-fetch of the list is started. */
    method HandleSubmit(succeeded: bool) returns (sent: Option<ScheduleForm>, refetch: bool)
      modifies this`formData, this`loading
      ensures IsBlank(old(formData).content) ==>
                sent == None && !refetch && formData == old(formData) && loading == old(loading)
      ensures !IsBlank(old(formData).content) ==>
                && sent == Some(old(formData)) && !loading
                && refetch == succeeded
                && formData == (if succeeded then InitialForm else old(formData))
    {
      if TrimsToEmpty(formData.content) {
        return None, false;
      }
      loading := true;
      sent := Some(formData);
      refetch := false;
      if succeeded {
        formData := InitialForm;
        refetch := true;
      }
      loading := false;
    }
  }
}
