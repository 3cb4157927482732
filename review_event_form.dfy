/** The review form: its schema with the issues it reports, the default values,
    the submit button's enable rule, and the submit flow, which empties the
    comment after a successful post (whose reply is an input). */
module ReviewEventForm {

  import opened Options
  import opened Validation

  /** The form's values; the rating comes from the star input. */
  datatype Review = Review(transactionId: string, eventId: string, rating: int, comment: string)

  /** `schema` as a plain predicate. */
  predicate ValidReview(r: Review) {
    IsUuid(r.transactionId) && IsUuid(r.eventId) && 1 <= r.rating <= 5 && |r.comment| >= 3
  }

  const TooLow: string := "Number must be greater than or equal to 1"
  const TooHigh: string := "Number must be less than or equal to 5"
  const ShortComment: string := "Comment minimal 3 karakter."

  /** The issues of the two ids, in field order. */
  function IdIssues(r: Review): (issues: seq<Issue>)
    ensures issues == [] <==> IsUuid(r.transactionId) && IsUuid(r.eventId)
    ensures Issue(Top("rating"), TooLow) !in issues && Issue(Top("rating"), TooHigh) !in issues
    ensures Issue(Top("comment"), ShortComment) !in issues
  {
    (if IsUuid(r.transactionId) then [] else [Issue(Top("transaction_id"), InvalidUuid)])
    + (if IsUuid(r.eventId) then [] else [Issue(Top("event_id"), InvalidUuid)])
  }

  /** The issues of a parse, in field order. */
  function Issues(r: Review): (issues: seq<Issue>)
    ensures issues == [] <==> ValidReview(r)
    ensures Issue(Top("rating"), TooLow) in issues <==> r.rating < 1
    ensures Issue(Top("rating"), TooHigh) in issues <==> r.rating > 5
    ensures Issue(Top("comment"), ShortComment) in issues <==> |r.comment| < 3
  {
    IdIssues(r)
    + (if r.rating < 1 then [Issue(Top("rating"), TooLow)] else [])
    + (if r.rating > 5 then [Issue(Top("rating"), TooHigh)] else [])
    + MinLengthIssues(Top("comment"), r.comment, 3, ShortComment)
  }

  /** `defaultValues`: the ids from the props, five stars, no comment. */
  function DefaultReview(transactionId: string, eventId: string): Review {
    Review(transactionId, eventId, 5, "")
  }

  /** The default rating passes and the empty comment does not, so the submit
      button starts disabled whatever the ids. */
  lemma DefaultIsRejectedForComment(transactionId: string, eventId: string)
    ensures var issues := Issues(DefaultReview(transactionId, eventId));
      && Issue(Top("comment"), ShortComment) in issues
      && Issue(Top("rating"), TooLow) !in issues && Issue(Top("rating"), TooHigh) !in issues
    ensures SubmitDisabled(DefaultReview(transactionId, eventId), false)
  {
  }

  /** The submit button's `disabled`: the form is invalid or a post is pending. */
  predicate SubmitDisabled(r: Review, isPending: bool) {
    !ValidReview(r) || isPending
  }

  /** The form's state. */
  class FormState {
    var values: Review

    constructor (transactionId: string, eventId: string)
      ensures values == DefaultReview(transactionId, eventId)
    {
      values := DefaultReview(transactionId, eventId);
    }

    /** The star input's `onChange`. */
    method OnRatingChange(rating: int)
      modifies this
      ensures values == old(values).(rating := rating)
    {
      values := values.(rating := rating);
    }

    /** The comment input's `onChange`. */
    method OnCommentChange(comment: string)
      modifies this
      ensures values == old(values).(comment := comment)
    {
      values := values.(comment := comment);
    }

    /** The submit: validation, the token check, then the post. After a
        successful post the form keeps the ids and the rating and empties only
        the comment; otherwise nothing changes. */
    method Submit(hasToken: bool, reply: Result<(), RequestFailure>) returns (outcome: Outcome)
      modifies this
      ensures outcome.Rejected? <==> !ValidReview(old(values))
      ensures outcome.Rejected? ==> outcome.issues == Issues(old(values))
      ensures ValidReview(old(values)) && !hasToken ==> outcome == NotSent(NoToken)
      ensures outcome.Sent? <==> ValidReview(old(values)) && hasToken
      ensures outcome.Sent? && reply.Err? ==>
        outcome == Sent(false, FailureToast(reply.error, "Gagal submit review."))
      ensures outcome == Sent(true, "Review berhasil dikirim.") <==> outcome.Sent? && reply.Ok?
      ensures outcome.Sent? && reply.Ok? ==> values == old(values).(comment := "")
      ensures !(outcome.Sent? && reply.Ok?) ==> values == old(values)
    {
      var issues := Issues(values);
      if issues != [] {
        return Rejected(issues);
      }
      if !hasToken {
        return NotSent(FailureToast(RequestFailure(None, Some(NoToken)), "Gagal submit review."));
      }
      match reply {
        case Ok(_) =>
          values := values.(comment := "");
          outcome := Sent(true, "Review berhasil dikirim.");
        case Err(failure) =>
          outcome := Sent(false, FailureToast(failure, "Gagal submit review."));
      }
    }
  }

  /** After the reset the same review cannot be posted twice in a row: the
      emptied comment disables the button again. */
  lemma ResetDisablesSubmit(r: Review, isPending: bool)
    ensures SubmitDisabled(r.(comment := ""), isPending)
    ensures r.(comment := "").rating == r.rating && r.(comment := "").eventId == r.eventId
  {
  }
}
