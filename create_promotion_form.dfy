/** The create-promotion form: its schema with the issues it reports, the
    default values, the submit button's enable rule and the submit flow up to
    the request (whose reply is an input). */
module CreatePromotionForm {

  import opened Options
  import opened Validation

  /** The form's values; the two `z.coerce.number()` fields are numbers. */
  datatype PromoForm = PromoForm(
    code: string,
    discountName: string,
    discountAmount: real,
    quota: real,
    expiresAt: string,
    eventId: string,
    image: Option<FileRef>)

  /** `formSchema` as a plain predicate. */
  predicate ValidPromoForm(f: PromoForm) {
    && |f.code| >= 1 && |f.discountName| >= 1
    && f.discountAmount >= 1.0
    && IsInteger(f.quota) && f.quota >= 1.0
    && |f.expiresAt| >= 1
    && IsUuid(f.eventId)
    && f.image.Some?
  }

  const UuidMessage: string := "Event ID must be a UUID."

  /** The issues of a parse, in field order. */
  function Issues(f: PromoForm): (issues: seq<Issue>)
    ensures issues == [] <==> ValidPromoForm(f)
    ensures !IsUuid(f.eventId) ==> Issue(Top("event_id"), UuidMessage) in issues
  {
    MinLengthIssues(Top("code"), f.code, 1, "Code is required.")
    + MinLengthIssues(Top("discount_name"), f.discountName, 1, "Promotion name is required.")
    + MinValueIssues(Top("discount_amount"), f.discountAmount, 1.0, "Discount amount must be >= 1.")
    + IntMinIssues(Top("quota"), f.quota, 1, "Quota must be >= 1.")
    + MinLengthIssues(Top("expires_at"), f.expiresAt, 1, "Expires date is required.")
    + (if IsUuid(f.eventId) then [] else [Issue(Top("event_id"), UuidMessage)])
    + FileIssues(Top("image"), f.image, "Image is required.")
  }

  /** `defaultValues`. */
  const DefaultForm: PromoForm := PromoForm("", "", 10000.0, 10.0, "", "", None)

  /** The default amount and quota already pass; the empty code, name, expiry,
      event and image are what the default form is rejected for. */
  lemma DefaultFormIssues()
    ensures Issues(DefaultForm) == [
      Issue(Top("code"), "Code is required."),
      Issue(Top("discount_name"), "Promotion name is required."),
      Issue(Top("expires_at"), "Expires date is required."),
      Issue(Top("event_id"), UuidMessage),
      Issue(Top("image"), "Image is required.")]
  {
    assert IsInteger(10.0);
    UuidExamples();
  }

  /** The submit button's `disabled`: a request is pending or no event is chosen. */
  predicate SubmitDisabled(isPending: bool, eventId: string) {
    isPending || eventId == ""
  }

  /** The button starts disabled, and whenever it is enabled an event is
      chosen, although the choice may still fail the UUID check. */
  lemma SubmitEnableRule(isPending: bool, f: PromoForm)
    ensures SubmitDisabled(false, DefaultForm.eventId)
    ensures !SubmitDisabled(isPending, f.eventId) ==> !isPending && f.eventId != ""
    ensures ValidPromoForm(f) && !isPending ==> !SubmitDisabled(isPending, f.eventId)
  {
  }

  /** The submit flow: validation, the token check, then the request; failures
      toast the server's message, the error's, or "Failed to create promotion.". */
  function Submit(f: PromoForm, hasToken: bool, reply: Result<(), RequestFailure>): (outcome: Outcome)
    ensures outcome.Rejected? <==> !ValidPromoForm(f)
    ensures outcome.Rejected? ==> outcome.issues == Issues(f) && outcome.issues != []
    ensures ValidPromoForm(f) && !hasToken ==> outcome == NotSent(NoToken)
    ensures outcome.Sent? <==> ValidPromoForm(f) && hasToken
    ensures outcome.Sent? ==> (outcome.succeeded <==> reply.Ok?)
    ensures outcome.Sent? && reply.Err? ==>
      outcome.toast == FailureToast(reply.error, "Failed to create promotion.")
  {
    var issues := Issues(f);
    if issues != [] then Rejected(issues)
    else if !hasToken then NotSent(FailureToast(RequestFailure(None, Some(NoToken)), "Failed to create promotion."))
    else match reply
      case Ok(_) => Sent(true, "Promotion created successfully!")
      case Err(failure) => Sent(false, FailureToast(failure, "Failed to create promotion."))
  }
}
