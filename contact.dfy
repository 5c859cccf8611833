/** The contact form of src/components/sections/Contact.tsx: three text fields
    and a four-state status, changed by the field handlers, the submit handler,
    the timer that simulates sending, and the "Send Another Message" button.
    Which controls are on screen depends on the status; a user can only act
    through a control that is there and enabled. The random send outcome is an
    input. */
module Contact {

  /** `FormState` (lines 6-10). */
  datatype FormState = FormState(name: string, email: string, message: string)

  /** `FormStatus` (line 12). */
  datatype FormStatus = Idle | Submitting | Success | Error

  /** The `name` attribute of each of the three inputs, which `handleChange`
      uses as the key to update. */
  datatype Field = NameField | EmailField | MessageField

  const EmptyForm: FormState := FormState("", "", "")

  function Get(d: FormState, f: Field): string {
    match f
    case NameField => d.name
    case EmailField => d.email
    case MessageField => d.message
  }

  /** `{ ...prev, [name]: value }` (line 24): the named field takes the new
      value and the other two keep theirs. */
  function WithField(d: FormState, f: Field, value: string): (r: FormState)
    ensures Get(r, f) == value
    ensures forall g :: g != f ==> Get(r, g) == Get(d, g)
  {
    match f
    case NameField => d.(name := value)
    case EmailField => d.(email := value)
    case MessageField => d.(message := value)
  }

  /** Editing a field twice keeps only the last value. */
  lemma LastEditWins(d: FormState, f: Field, v1: string, v2: string)
    ensures WithField(WithField(d, f, v1), f, v2) == WithField(d, f, v2)
  {
  }

  /** Writing back a field's own value changes nothing. */
  lemma EditWithSameValue(d: FormState, f: Field)
    ensures WithField(d, f, Get(d, f)) == d
  {
  }

  /** What the form card shows (lines 75-177): either the success panel with
      its "Send Another Message" button, or the form, with the error banner and
      a submit button that may be disabled. */
  datatype View = SuccessPanel | FormView(errorBanner: bool, submitDisabled: bool)

  function Render(status: FormStatus): (v: View)
    ensures v.SuccessPanel? <==> status == Success
    ensures v.FormView? ==> (v.errorBanner <==> status == Error)
    ensures v.FormView? ==> (v.submitDisabled <==> status == Submitting)
  {
    match status
    case Success => SuccessPanel
    case Error => FormView(true, false)
    case Submitting => FormView(false, true)
    case Idle => FormView(false, false)
  }

  /** Whether the submit control can be used: the form is shown and its
      button is enabled. */
  predicate CanSubmit(status: FormStatus) {
    Render(status).FormView? && !Render(status).submitDisabled
  }

  /** A new submission is possible exactly from `idle` and `error`. */
  lemma ResubmitFromIdleOrErrorOnly(status: FormStatus)
    ensures CanSubmit(status) <==> status == Idle || status == Error
  {
  }

  /** The browser's check of the `required` attributes (lines 108, 123, 138):
      the submit event fires only when no field is empty. */
  predicate RequiredFilled(d: FormState)
    ensures RequiredFilled(d) <==> forall f :: Get(d, f) != ""
  {
    Get(d, NameField) != "" && Get(d, EmailField) != "" && Get(d, MessageField) != ""
  }

  /** What a user can do: type into a field, press the submit button, press
      "Send Another Message". */
  datatype UserAction = Edit(field: Field, value: string) | PressSubmit | PressSendAnother

  class ContactForm {
    var data: FormState
    var status: FormStatus
    /** Simulated-send timers scheduled by `handleSubmit` and not yet run. */
    var pendingTimers: nat

    /** A timer is pending exactly while submitting, and the success panel
        is only ever shown over an emptied form. */
    ghost predicate Valid()
      reads this
      ensures Valid() ==> pendingTimers <= 1 && (pendingTimers > 0 <==> status == Submitting)
      ensures Valid() && status == Success ==> forall f :: Get(data, f) == ""
    {
      pendingTimers == (if status == Submitting then 1 else 0) &&
      (status == Success ==> data == EmptyForm)
    }

    /** The two `useState` cells at mount (lines 15-20). */
    constructor ()
      ensures Valid()
      ensures data == EmptyForm && status == Idle && pendingTimers == 0
    {
      data := EmptyForm;
      status := Idle;
      pendingTimers := 0;
    }

    /** `handleChange` (lines 22-25). */
    method HandleChange(f: Field, value: string)
      modifies this`data
      ensures data == WithField(old(data), f, value)
    {
      data := WithField(data, f, value);
    }

    /** `handleSubmit` (lines 27-48): the status becomes `submitting` at
        once, the data stay, and a timer is scheduled. */
    method HandleSubmit()
      modifies this`status, this`pendingTimers
      ensures status == Submitting
      ensures pendingTimers == old(pendingTimers) + 1
    {
      status := Submitting;
      pendingTimers := pendingTimers + 1;
    }

    /** The timer callback (lines 40-47); `sent` stands for
        `Math.random() > 0.2`. Success empties all three fields; failure
        keeps them, including edits made while submitting. */
    method TimerFires(sent: bool)
      requires Valid() && pendingTimers > 0
      modifies this
      ensures Valid()
      ensures pendingTimers == old(pendingTimers) - 1
      ensures sent ==> status == Success && data == EmptyForm
      ensures !sent ==> status == Error && data == old(data)
    {
      pendingTimers := pendingTimers - 1;
      if sent {
        status := Success;
        data := EmptyForm;
      } else {
        status := Error;
      }
    }

    /** The "Send Another Message" button's handler (line 89). */
    method SendAnother()
      modifies this`status
      ensures status == Idle
    {
      status := Idle;
    }

    /** A user action, delivered only through a control that the current
        view shows and enables. */
    method Interact(a: UserAction)
      requires Valid()
      modifies this
      ensures Valid()
      ensures pendingTimers >= old(pendingTimers)
      ensures a.Edit? ==>
        status == old(status) && pendingTimers == old(pendingTimers) &&
        data == (if old(status) == Success then old(data) else WithField(old(data), a.field, a.value))
      ensures a.PressSubmit? ==>
        data == old(data) &&
        if CanSubmit(old(status)) && RequiredFilled(old(data))
        then status == Submitting && pendingTimers == 1
        else status == old(status) && pendingTimers == old(pendingTimers)
      ensures a.PressSendAnother? ==>
        data == old(data) && pendingTimers == old(pendingTimers) &&
        status == (if old(status) == Success then Idle else old(status))
    {
      var view := Render(status);
      match a
      case Edit(f, v) =>
        if view.FormView? {
          HandleChange(f, v);
        }
      case PressSubmit =>
        if view.FormView? && !view.submitDisabled && RequiredFilled(data) {
          HandleSubmit();
        }
      case PressSendAnother =>
        if view.SuccessPanel? {
          SendAnother();
        }
    }
  }

  /** A failed send keeps what was typed and shows the error banner; the
      retry succeeds, empties the form and shows the success panel; "Send
      Another Message" returns to an empty idle form. */
  method FailThenRetry()
    returns (afterFailure: FormStatus, keptData: FormState, afterRetry: FormStatus,
             retryView: View, finalStatus: FormStatus, finalData: FormState)
    ensures afterFailure == Error && keptData == FormState("Ada", "ada@example.org", "Hi") && Render(afterFailure).errorBanner
    ensures afterRetry == Success && retryView == SuccessPanel
    ensures finalStatus == Idle && finalData == EmptyForm
  {
    var form := new ContactForm();
    form.Interact(Edit(NameField, "Ada"));
    form.Interact(Edit(EmailField, "ada@example.org"));
    form.Interact(Edit(MessageField, "Hi"));
    form.Interact(PressSubmit);
    form.Interact(PressSubmit);
    form.TimerFires(false);
    afterFailure, keptData := form.status, form.data;
    form.Interact(PressSubmit);
    form.TimerFires(true);
    afterRetry, retryView := form.status, Render(form.status);
    form.Interact(PressSendAnother);
    finalStatus, finalData := form.status, form.data;
  }
}
