/** The transaction modal: shows a checkout draft, creates the transaction on
    the server, then swaps in the server's record and reveals the payment-proof
    upload card. The request itself is a parameter (its reply). */
module TransactionDetail {

  import opened Options
  import opened Text
  import opened TransactionTypes

  /** The status codes `mapStatus` knows and their labels. `CANCELED` is not
      among them. */
  const StatusLabels: map<string, string> := map[
    "WAITING_FOR_PAYMENT" := "To Pay",
    "WAITING_FOR_CONFIRMATION" := "Waiting for confirmation by admin",
    "PAID" := "Paid",
    "REJECT" := "Rejected",
    "EXPIRED" := "Expired",
    "WAITING_FOR_REVIEW" := "Waiting for Review",
    "REVIEW_DONE" := "Review Done"
  ]

  /** `mapStatus`: the label of a known code; any other string unchanged. */
  function MapStatus(status: string): (shown: string)
    ensures status in StatusLabels ==> shown == StatusLabels[status]
    ensures status !in StatusLabels ==> shown == status
  {
    if status == "WAITING_FOR_PAYMENT" then "To Pay"
    else if status == "WAITING_FOR_CONFIRMATION" then "Waiting for confirmation by admin"
    else if status == "PAID" then "Paid"
    else if status == "REJECT" then "Rejected"
    else if status == "EXPIRED" then "Expired"
    else if status == "WAITING_FOR_REVIEW" then "Waiting for Review"
    else if status == "REVIEW_DONE" then "Review Done"
    else status
  }

  /** `CANCELED` is shown as the raw code. */
  lemma CanceledIsNotMapped()
    ensures MapStatus("CANCELED") == "CANCELED"
  {
  }

  /** `mapStatus` never invents the "DRAFT" status. */
  lemma MapStatusNeverDraft(status: string)
    ensures MapStatus(status) == "DRAFT" <==> status == "DRAFT"
  {
  }

  /** The id values that mark a record as not yet created: "DRAFT", "" or 0. */
  predicate IsPlaceholderId(id: TrxId) {
    id == TextId("DRAFT") || id == TextId("") || id == NumberId(0)
  }

  /** `isDraft`: no record is no draft; otherwise the status or the id says
      it has not been created yet. */
  function IsDraft(display: Option<TransactionDetailData>): (draft: bool)
    ensures display.None? ==> !draft
    ensures display.Some? ==> (draft <==> display.value.status == "DRAFT" || IsPlaceholderId(display.value.id))
  {
    match display
    case None => false
    case Some(d) =>
      d.status == "DRAFT" || d.id == TextId("DRAFT") || d.id == TextId("") || d.id == NumberId(0)
  }

  /** Why `createTransaction` throws before sending anything. */
  datatype CreateError = NoDraftData | NoAccessToken | MissingIds

  /** The body of `POST /transactions`. */
  datatype CreatePayload = CreatePayload(
    eventId: string, ticketId: string, qty: int, couponId: Option<string>, pointsUsed: int)

  /** The guards and payload of `createTransaction`: the checks run in source
      order, and the payload defaults `qty` to 1 and `points_used` to 0. */
  function BuildPayload(display: Option<TransactionDetailData>, hasToken: bool)
    : (r: Result<CreatePayload, CreateError>)
    ensures r.Ok? <==> display.Some? && hasToken
                       && !Falsy(display.value.eventId) && !Falsy(display.value.ticketId)
    ensures display.None? ==> r == Err(NoDraftData)
    ensures display.Some? && !hasToken ==> r == Err(NoAccessToken)
    ensures r.Ok? ==>
      && r.value.eventId == display.value.eventId.value && r.value.eventId != ""
      && r.value.ticketId == display.value.ticketId.value && r.value.ticketId != ""
      && r.value.couponId == display.value.couponId
    ensures r.Ok? ==>
      && r.value.qty == display.value.qty.GetOr(1)
      && r.value.pointsUsed == display.value.pointsUsed.GetOr(0)
  {
    match display
    case None => Err(NoDraftData)
    case Some(d) =>
      if !hasToken then Err(NoAccessToken)
      else if Falsy(d.eventId) || Falsy(d.ticketId) then Err(MissingIds)
      else Ok(CreatePayload(
        d.eventId.value, d.ticketId.value, d.qty.GetOr(1), d.couponId, d.pointsUsed.GetOr(0)))
  }

  /** The fields of the server's reply that the modal reads; `computed*` are
      the server's own figures. */
  datatype CreatedData = CreatedData(
    transactionId: string,
    status: Option<string>,
    paymentDeadline: Option<string>,
    eventTitle: Option<string>,
    ticketName: Option<string>,
    computedQty: Option<int>,
    basePrice: Option<int>,
    totalPrice: Option<int>)

  /** The record built from the reply (`mapped`). `localeDate` stands for
      `new Date(..).toLocaleString("id-ID")`. */
  function MapCreated(display: TransactionDetailData, payload: CreatePayload, data: CreatedData,
                      localeDate: string -> string): (mapped: TransactionDetailData)
    ensures mapped.id == TextId(data.transactionId)
    ensures mapped.status == MapStatus(data.status.GetOr("WAITING_FOR_PAYMENT"))
    ensures mapped.eventId == Some(payload.eventId) && mapped.ticketId == Some(payload.ticketId)
    ensures mapped.qty == Some(payload.qty) && mapped.couponId == payload.couponId
    ensures mapped.pointsUsed == None
    ensures |mapped.tickets| == 1 && mapped.total == data.totalPrice.GetOr(0)
  {
    var qty := data.computedQty.GetOr(payload.qty);
    var basePrice := data.basePrice.GetOr(0);
    TransactionDetailData(
      id := TextId(data.transactionId),
      eventName := data.eventTitle.GetOr(display.eventName),
      eventDate := display.eventDate,
      status := MapStatus(data.status.GetOr("WAITING_FOR_PAYMENT")),
      dateline := if data.paymentDeadline.Some? && data.paymentDeadline.value != ""
                  then Some(localeDate(data.paymentDeadline.value)) else None,
      tickets := [TicketLine(IntToString(qty) + "x " + data.ticketName.GetOr("Ticket"), basePrice * qty)],
      total := data.totalPrice.GetOr(0),
      image := display.image,
      eventId := Some(payload.eventId),
      ticketId := Some(payload.ticketId),
      qty := Some(payload.qty),
      couponId := payload.couponId,
      pointsUsed := None)
  }

  /** Once the server answers with a real id and a status other than "DRAFT",
      the modal no longer treats the record as a draft, so the create button
      is gone. */
  lemma CreatedIsNotDraft(display: TransactionDetailData, payload: CreatePayload, data: CreatedData,
                          localeDate: string -> string)
    requires data.transactionId != "DRAFT" && data.transactionId != ""
    requires data.status != Some("DRAFT")
    ensures !IsDraft(Some(MapCreated(display, payload, data, localeDate)))
  {
    MapStatusNeverDraft(data.status.GetOr("WAITING_FOR_PAYMENT"));
  }

  /** The modal's own state: the server record after a successful create, and
      whether the upload card is shown. */
  class Modal {
    var serverTrx: Option<TransactionDetailData>
    var showUploadCard: bool

    /** The upload card is shown exactly when a server record is held. */
    ghost predicate Valid()
      reads this
    {
      showUploadCard <==> serverTrx.Some?
    }

    constructor ()
      ensures serverTrx == None && !showUploadCard && Valid()
    {
      serverTrx := None;
      showUploadCard := false;
    }

    /** `displayTrx = serverTrx ?? trx`. */
    function Display(prop: Option<TransactionDetailData>): Option<TransactionDetailData>
      reads this
    {
      OrElse(serverTrx, prop)
    }

    /** The modal renders nothing while closed or with nothing to display. */
    predicate Renders(open: bool, prop: Option<TransactionDetailData>)
      reads this
    {
      open && Display(prop).Some?
    }

    /** Step 2 of the modal: the upload card for the server record. */
    predicate UploadCardShown(open: bool, prop: Option<TransactionDetailData>)
      reads this
    {
      Renders(open, prop) && showUploadCard && serverTrx.Some?
    }

    /** The effect on `open`: closing clears the server record and hides the
        card, so a reopened modal is back at step 1 on the record it is given:
        the upload card stays hidden until a create succeeds, since no other
        method sets it. */
    method OnOpenChanged(open: bool)
      modifies this
      ensures !open ==> serverTrx == None && !showUploadCard
      ensures !open ==> forall prop :: Display(prop) == prop && !UploadCardShown(true, prop)
      ensures open ==> serverTrx == old(serverTrx) && showUploadCard == old(showUploadCard)
      ensures old(Valid()) ==> Valid()
    {
      if !open {
        serverTrx := None;
        showUploadCard := false;
      }
    }

    /** The effect on `trx?.id`: a new draft starts from a clean modal. */
    method OnTrxIdChanged()
      modifies this
      ensures serverTrx == None && !showUploadCard && Valid()
      ensures forall prop :: Display(prop) == prop && !UploadCardShown(true, prop)
    {
      serverTrx := None;
      showUploadCard := false;
    }

    /** `createTransaction`: builds the payload from the displayed record; when
      a guard fails nothing is sent and nothing changes; a successful reply
      stores the mapped record and shows the upload card; a failed one only
      toasts. */
    method CreateTransaction(prop: Option<TransactionDetailData>, hasToken: bool,
                             reply: Result<CreatedData, string>, localeDate: string -> string)
      returns (sent: bool)
      modifies this
      ensures sent <==> BuildPayload(OrElse(old(serverTrx), prop), hasToken).Ok?
      ensures sent && reply.Ok? ==>
        serverTrx == Some(MapCreated(OrElse(old(serverTrx), prop).value,
                                     BuildPayload(OrElse(old(serverTrx), prop), hasToken).value,
                                     reply.value, localeDate))
        && showUploadCard
      ensures !(sent && reply.Ok?) ==> serverTrx == old(serverTrx) && showUploadCard == old(showUploadCard)
      ensures old(Valid()) ==> Valid()
    {
      var display := Display(prop);
      var payload := BuildPayload(display, hasToken);
      sent := payload.Ok?;
      if sent && reply.Ok? {
        serverTrx := Some(MapCreated(display.value, payload.value, reply.value, localeDate));
        showUploadCard := true;
      }
    }
  }
}
