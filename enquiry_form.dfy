/** The product enquiry form: its default values, the validation gate in front of
    the submit handler, and the handler's `isSubmitting` flag, reset and toasts. */
module EnquiryForm {
  import opened Wrappers
  import opened SanityTypes
  import opened EnquirySchema

  /** What `submitEnquiryAction` resolves to. */
  datatype ActionResult = ActionResult(success: bool, message: string)

  /** How the awaited action call ends: it resolves to a result or it throws. */
  datatype ActionOutcome = Settled(result: ActionResult) | Threw

  const SentTitle: string := "Enquiry Sent!"
  const FailedTitle: string := "Submission Failed"
  const UnexpectedError: string := "An unexpected error occurred."
  const ClientErrorTitle: string := "Client Error"
  const ClientErrorText: string := "Failed to submit your enquiry. Please try again."

  /** The form's default values: the product name from the prop, every other field empty.
      The defaults themselves never pass the schema. */
  function DefaultValues(productName: string): (v: EnquiryFormValues)
    ensures v.productName == productName
    ensures v.name == "" && v.email == "" && v.mobile == "" && v.enquiry == ""
    ensures forall isEmail: string -> bool :: !ValidPayload(v, isEmail)
  {
    EnquiryFormValues(productName, "", "", "", "")
  }

  /** The toast shown when the action call has ended. Only a successful result gives a
      non-destructive toast, and a failure toast always has a description. */
  function ToastFor(outcome: ActionOutcome): (t: Toast)
    ensures !t.destructive <==> outcome.Settled? && outcome.result.success
    ensures outcome.Settled? && outcome.result.success ==>
      t.title == SentTitle && t.description == outcome.result.message
    ensures outcome.Settled? && !outcome.result.success ==>
      t.title == FailedTitle && t.description == OrElse(Some(outcome.result.message), UnexpectedError)
    ensures outcome.Threw? ==> t.title == ClientErrorTitle && t.description == ClientErrorText
    ensures t.destructive ==> t.description != ""
  {
    match outcome
    case Settled(result) =>
      if result.success then Toast(SentTitle, result.message, false)
      else Toast(FailedTitle, if result.message != "" then result.message else UnexpectedError, true)
    case Threw => Toast(ClientErrorTitle, ClientErrorText, true)
  }

  class ProductEnquiryForm {
    /** The values `reset()` restores: those given to the form when it was created. */
    const defaults: EnquiryFormValues
    /** The schema's email check. */
    const isEmail: string -> bool
    var values: EnquiryFormValues
    var isSubmitting: bool
    var toasts: seq<Toast>
    /** Every payload handed to `submitEnquiryAction`, oldest first. */
    ghost var sent: seq<EnquiryFormValues>

    /** The product name is never edited, and every payload handed to the action
        passed the schema. */
    ghost predicate Valid()
      reads this
    {
      && values.productName == defaults.productName
      && forall i :: 0 <= i < |sent| ==> ValidPayload(sent[i], isEmail)
    }

    /** The submit button is disabled exactly while a submission is in flight. */
    predicate SubmitDisabled()
      reads this
    {
      isSubmitting
    }

    constructor (productName: string, isEmail: string -> bool)
      ensures this.isEmail == isEmail
      ensures defaults == DefaultValues(productName) && values == defaults
      ensures !isSubmitting && toasts == [] && sent == []
      ensures Valid()
    {
      this.isEmail := isEmail;
      defaults := DefaultValues(productName);
      values := DefaultValues(productName);
      isSubmitting := false;
      toasts := [];
      sent := [];
    }

    /** The user edits the four visible fields; the product name has no input. */
    method Edit(name: string, email: string, mobile: string, enquiry: string)
      requires Valid()
      modifies this`values
      ensures values == EnquiryFormValues(old(values).productName, name, email, mobile, enquiry)
      ensures Valid()
    {
      values := EnquiryFormValues(values.productName, name, email, mobile, enquiry);
    }

    /** `onSubmit` up to its `await`: the flag is raised and the payload goes to the
        action. The resolver only calls it with values that passed the schema, and
        only from the submit button, which is enabled only while nothing is in flight. */
    method StartSubmit(payload: EnquiryFormValues)
      requires Valid() && ValidPayload(payload, isEmail)
      requires !SubmitDisabled()
      modifies this`isSubmitting, this`sent
      ensures isSubmitting && SubmitDisabled()
      ensures sent == old(sent) + [payload]
      ensures Valid()
    {
      isSubmitting := true;
      sent := sent + [payload];
    }

    /** `onSubmit` after its `await`: one toast, a reset only on a successful result,
        and the flag lowered on every path. */
    method SettleSubmit(outcome: ActionOutcome)
      requires Valid() && isSubmitting
      modifies this`isSubmitting, this`values, this`toasts
      ensures !isSubmitting && !SubmitDisabled()
      ensures values == if outcome.Settled? && outcome.result.success then defaults else old(values)
      ensures toasts == old(toasts) + [ToastFor(outcome)]
      ensures Valid()
    {
      match outcome {
        case Settled(result) =>
          toasts := toasts + [ToastFor(outcome)];
          if result.success {
            values := defaults;
          }
        case Threw =>
          toasts := toasts + [ToastFor(outcome)];
      }
      isSubmitting := false;
    }

    /** `form.handleSubmit(onSubmit)`: the current values are checked against the schema;
        with issues nothing else happens, otherwise `onSubmit` runs to its end. It is
        reached through the enabled submit button, so no submission is in flight. */
    method HandleSubmit(outcome: ActionOutcome) returns (issues: seq<Issue>)
      requires Valid() && !SubmitDisabled()
      modifies this
      ensures issues == Validate(old(values), isEmail)
      ensures issues != [] ==>
        values == old(values) && !isSubmitting
        && toasts == old(toasts) && sent == old(sent)
      ensures issues == [] ==>
        && sent == old(sent) + [old(values)]
        && !isSubmitting
        && values == (if outcome.Settled? && outcome.result.success then defaults else old(values))
        && toasts == old(toasts) + [ToastFor(outcome)]
      ensures Valid()
    {
      issues := Validate(values, isEmail);
      if issues == [] {
        StartSubmit(values);
        SettleSubmit(outcome);
      }
    }
  }
}
