/** The create-event form: the ticket and form schemas with their issues, the
    default values, the ticket rows added and removed in place, and the
    submit flow up to the request (whose reply is an input). */
module CreateEventForm {

  import opened Options
  import opened Validation

  /** One ticket row as the schema reads it (`z.coerce.number()` fields are
      already numbers). */
  datatype TicketInput = TicketInput(name: string, price: real, quota: real)

  /** The form's values. `categoryId` is coerced to a number. */
  datatype EventForm = EventForm(
    title: string,
    categoryId: real,
    description: string,
    startDate: string,
    endDate: string,
    location: string,
    image: Option<FileRef>,
    tickets: seq<TicketInput>)

  /** `ticketSchema` as a plain predicate. */
  predicate ValidTicket(t: TicketInput) {
    |t.name| >= 1 && t.price >= 0.0 && IsInteger(t.quota) && t.quota >= 1.0
  }

  /** The issues `ticketSchema` reports for row `index`. */
  function TicketIssues(index: nat, t: TicketInput): (issues: seq<Issue>)
    ensures issues == [] <==> ValidTicket(t)
    ensures forall k :: 0 <= k < |issues| ==> issues[k].path.Row? && issues[k].path.index == index
  {
    MinLengthIssues(Row("tickets", index, "name"), t.name, 1, "Ticket name is required.")
    + MinValueIssues(Row("tickets", index, "price"), t.price, 0.0, "Price must be 0 or more.")
    + IntMinIssues(Row("tickets", index, "quota"), t.quota, 1, "Quota must be at least 1.")
  }

  /** The issues of every row from `index` on, row by row. */
  function RowsIssues(index: nat, rows: seq<TicketInput>): (issues: seq<Issue>)
    ensures issues == [] <==> forall i :: 0 <= i < |rows| ==> ValidTicket(rows[i])
    ensures forall k :: 0 <= k < |issues| ==>
      issues[k].path.Row? && index <= issues[k].path.index < index + |rows|
    decreases |rows|
  {
    if rows == [] then []
    else
      var rest := RowsIssues(index + 1, rows[1..]);
      assert forall i :: 1 <= i < |rows| ==> rows[i] == rows[1..][i - 1];
      TicketIssues(index, rows[0]) + rest
  }

  /** The `refine`: both dates parse (`toTime` stands for
      `new Date(..).getTime()`, absent for an invalid date) and the end is not
      before the start. */
  predicate EndNotBefore(f: EventForm, toTime: string -> Option<int>) {
    toTime(f.endDate).Some? && toTime(f.startDate).Some?
    && toTime(f.endDate).value >= toTime(f.startDate).value
  }

  const EndBeforeStart: string := "End date must be after start date"

  /** `formSchema` as a plain predicate. */
  predicate ValidEventForm(f: EventForm, toTime: string -> Option<int>) {
    && |f.title| >= 5
    && IsInteger(f.categoryId) && f.categoryId >= 1.0
    && |f.description| >= 10
    && |f.startDate| >= 1 && |f.endDate| >= 1 && |f.location| >= 1
    && f.image.Some?
    && |f.tickets| >= 1
    && (forall i :: 0 <= i < |f.tickets| ==> ValidTicket(f.tickets[i]))
    && EndNotBefore(f, toTime)
  }

  /** The issues of the title, category and description, in field order. */
  function TextIssues(f: EventForm): (issues: seq<Issue>)
    ensures issues == [] <==>
      |f.title| >= 5 && IsInteger(f.categoryId) && f.categoryId >= 1.0 && |f.description| >= 10
    ensures Issue(Top("tickets"), NoTickets) !in issues
    ensures Issue(Top("endDate"), EndBeforeStart) !in issues
  {
    MinLengthIssues(Top("title"), f.title, 5, "Title must be at least 5 characters.")
    + IntMinIssues(Top("category_id"), f.categoryId, 1, "Category is required.")
    + MinLengthIssues(Top("description"), f.description, 10, "Description must be at least 10 characters.")
  }

  /** The issues of the dates, the location and the image, in field order. */
  function RequiredIssues(f: EventForm): (issues: seq<Issue>)
    ensures issues == [] <==>
      |f.startDate| >= 1 && |f.endDate| >= 1 && |f.location| >= 1 && f.image.Some?
    ensures Issue(Top("tickets"), NoTickets) !in issues
    ensures Issue(Top("endDate"), EndBeforeStart) !in issues
  {
    MinLengthIssues(Top("startDate"), f.startDate, 1, "Start date is required.")
    + MinLengthIssues(Top("endDate"), f.endDate, 1, "End date is required.")
    + MinLengthIssues(Top("location"), f.location, 1, "Location is required.")
    + FileIssues(Top("image"), f.image, "Image is required.")
  }

  /** The issues of the fields before the ticket array, in field order. */
  function ScalarIssues(f: EventForm): (issues: seq<Issue>)
    ensures issues == [] <==>
      && |f.title| >= 5 && IsInteger(f.categoryId) && f.categoryId >= 1.0
      && |f.description| >= 10 && |f.startDate| >= 1 && |f.endDate| >= 1 && |f.location| >= 1
      && f.image.Some?
    ensures Issue(Top("tickets"), NoTickets) !in issues
    ensures Issue(Top("endDate"), EndBeforeStart) !in issues
  {
    TextIssues(f) + RequiredIssues(f)
  }

  const NoTickets: string := "At least 1 ticket type is required."

  /** The ticket array's issues: its minimum length first, then each row's. */
  function TicketArrayIssues(tickets: seq<TicketInput>): (issues: seq<Issue>)
    ensures issues == [] <==> |tickets| >= 1 && forall i :: 0 <= i < |tickets| ==> ValidTicket(tickets[i])
    ensures Issue(Top("tickets"), NoTickets) in issues <==> |tickets| < 1
    ensures Issue(Top("endDate"), EndBeforeStart) !in issues
  {
    (if |tickets| < 1 then [Issue(Top("tickets"), NoTickets)] else []) + RowsIssues(0, tickets)
  }

  /** The object's field issues, in field order. */
  function FieldIssues(f: EventForm): (issues: seq<Issue>)
    ensures issues == [] <==>
      && |f.title| >= 5 && IsInteger(f.categoryId) && f.categoryId >= 1.0
      && |f.description| >= 10 && |f.startDate| >= 1 && |f.endDate| >= 1 && |f.location| >= 1
      && f.image.Some? && |f.tickets| >= 1
      && (forall i :: 0 <= i < |f.tickets| ==> ValidTicket(f.tickets[i]))
    ensures Issue(Top("tickets"), NoTickets) in issues <==> |f.tickets| < 1
    ensures Issue(Top("endDate"), EndBeforeStart) !in issues
  {
    ScalarIssues(f) + TicketArrayIssues(f.tickets)
  }

  /** The whole parse: the field issues, then the refine's issue on `endDate`.
      A missing image is a fatal issue, so the refine does not run without one. */
  function Issues(f: EventForm, toTime: string -> Option<int>): (issues: seq<Issue>)
    ensures issues == [] <==> ValidEventForm(f, toTime)
    ensures f.image.Some? && !EndNotBefore(f, toTime) ==>
      issues[|issues| - 1] == Issue(Top("endDate"), EndBeforeStart)
    ensures f.image.None? ==> Issue(Top("endDate"), EndBeforeStart) !in issues
  {
    var fields := FieldIssues(f);
    if f.image.Some? && !EndNotBefore(f, toTime) then fields + [Issue(Top("endDate"), EndBeforeStart)]
    else fields
  }

  /** The row `append` adds and the first default row. */
  const DefaultTicket: TicketInput := TicketInput("", 0.0, 1.0)

  /** `defaultValues`. */
  const DefaultForm: EventForm := EventForm("", 0.0, "", "", "", "", None, [DefaultTicket])

  /** The default form reports every required field, and of the default row
      only its name: its price 0 and quota 1 already pass. */
  lemma DefaultFormIssues(toTime: string -> Option<int>)
    ensures Issues(DefaultForm, toTime) == [
      Issue(Top("title"), "Title must be at least 5 characters."),
      Issue(Top("category_id"), "Category is required."),
      Issue(Top("description"), "Description must be at least 10 characters."),
      Issue(Top("startDate"), "Start date is required."),
      Issue(Top("endDate"), "End date is required."),
      Issue(Top("location"), "Location is required."),
      Issue(Top("image"), "Image is required."),
      Issue(Row("tickets", 0, "name"), "Ticket name is required.")]
    ensures !ValidTicket(DefaultTicket)
    ensures DefaultTicket.price >= 0.0 && IsInteger(DefaultTicket.quota) && DefaultTicket.quota >= 1.0
  {
    assert IsInteger(0.0) && IsInteger(1.0);
    assert TextIssues(DefaultForm) == [
      Issue(Top("title"), "Title must be at least 5 characters."),
      Issue(Top("category_id"), "Category is required."),
      Issue(Top("description"), "Description must be at least 10 characters.")];
    assert RequiredIssues(DefaultForm) == [
      Issue(Top("startDate"), "Start date is required."),
      Issue(Top("endDate"), "End date is required."),
      Issue(Top("location"), "Location is required."),
      Issue(Top("image"), "Image is required.")];
    assert RowsIssues(1, []) == [];
    assert TicketArrayIssues(DefaultForm.tickets) == [Issue(Row("tickets", 0, "name"), "Ticket name is required.")];
  }

  /** The submit flow: validation, the token check, then the request. The
      `onError` toast reads the server's message and falls back to a fixed
      text, so the missing-token error shows as "Something went wrong!". */
  function Submit(f: EventForm, toTime: string -> Option<int>, hasToken: bool,
                  reply: Result<(), Option<string>>): (outcome: Outcome)
    ensures outcome.Rejected? <==> !ValidEventForm(f, toTime)
    ensures outcome.Rejected? ==> outcome.issues == Issues(f, toTime) && outcome.issues != []
    ensures ValidEventForm(f, toTime) && !hasToken ==> outcome == NotSent("Something went wrong!")
    ensures outcome.Sent? <==> ValidEventForm(f, toTime) && hasToken
    ensures outcome.Sent? ==> (outcome.succeeded <==> reply.Ok?)
    ensures outcome.Sent? && reply.Err? ==> outcome.toast == reply.error.GetOr("Something went wrong!")
  {
    var issues := Issues(f, toTime);
    if issues != [] then Rejected(issues)
    else if !hasToken then NotSent("Something went wrong!")
    else match reply
      case Ok(_) => Sent(true, "Create Event success!")
      case Err(message) => Sent(false, message.GetOr("Something went wrong!"))
  }

  /** The form's state: the values, whose ticket rows the field array edits in
      place. */
  class FormState {
    var values: EventForm

    /** The field array always keeps at least one row. */
    ghost predicate Valid()
      reads this
    {
      |values.tickets| >= 1
    }

    constructor ()
      ensures values == DefaultForm && Valid()
    {
      values := DefaultForm;
    }

    /** The "Remove" button is offered only while more than one row exists. */
    predicate RemoveOffered()
      reads this
    {
      |values.tickets| > 1
    }

    /** "Add Ticket": one default row at the end, nothing else changes. */
    method Append()
      modifies this
      ensures values == old(values).(tickets := old(values).tickets + [DefaultTicket])
      ensures old(Valid()) ==> Valid()
    {
      values := values.(tickets := values.tickets + [DefaultTicket]);
    }

    /** "Remove" on row `index`, which the page shows only when more than one
        row exists: that row goes, the others keep their order. */
    method Remove(index: nat)
      requires RemoveOffered() && index < |values.tickets|
      modifies this
      ensures values == old(values).(tickets := old(values).tickets[..index] + old(values).tickets[index + 1..])
      ensures Valid()
    {
      values := values.(tickets := values.tickets[..index] + values.tickets[index + 1..]);
    }

    /** A ticket field edited in row `index`. */
    method SetRow(index: nat, t: TicketInput)
      requires index < |values.tickets|
      modifies this
      ensures values == old(values).(tickets := old(values).tickets[index := t])
      ensures old(Valid()) ==> Valid()
    {
      values := values.(tickets := values.tickets[index := t]);
    }
  }

  /** A form whose rows the field array kept non-empty never reports the
      "at least one ticket" issue. */
  lemma KeptRowsNeverEmpty(f: EventForm, toTime: string -> Option<int>)
    requires |f.tickets| >= 1
    ensures Issue(Top("tickets"), NoTickets) !in Issues(f, toTime)
  {
  }
}
