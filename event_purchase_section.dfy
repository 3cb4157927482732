/** The purchase panel of the event page: the chosen quantities, the pricing
    pipeline (subtotal, promo discount, total, loyalty points), promo-code
    handling and checkout, which opens the transaction modal on a draft.
    The promo validation request and the points balance query are inputs. */
module PurchaseSection {

  import opened Options
  import opened JsMath
  import opened Text
  import opened EventTypes
  import opened TransactionTypes
  import opened TicketTypesList
  import OrderSummary
  import TransactionDetail

  /** The promotion returned by `/promotions/validate`. */
  datatype AppliedPromo = AppliedPromo(
    couponId: string, code: string, discountName: string,
    discountAmount: int, expiresAt: string, eventId: string)

  /** One entry of `selectedLines`. */
  datatype Line = Line(ticket: Ticket, qty: int, lineTotal: int)

  function TicketsOf(lines: seq<Line>): (ts: seq<Ticket>)
    ensures |ts| == |lines|
  {
    seq(|lines|, k requires 0 <= k < |lines| => lines[k].ticket)
  }

  /** `a` is `b` with some elements dropped, the rest kept in order. */
  predicate Subsequence<T(==)>(a: seq<T>, b: seq<T>)
    decreases |b|
  {
    if a == [] then true
    else if b == [] then false
    else (a[0] == b[0] && Subsequence(a[1..], b[1..])) || Subsequence(a, b[1..])
  }

  /** `selectedLines`: the tickets with a positive quantity, in ticket order,
      each with its quantity and line total. */
  function SelectedLines(tickets: seq<Ticket>, qtyMap: map<string, int>): (lines: seq<Line>)
    ensures |lines| <= |tickets|
    ensures forall k :: 0 <= k < |lines| ==>
      && lines[k].qty == QtyOf(qtyMap, lines[k].ticket.ticketId) > 0
      && lines[k].lineTotal == lines[k].qty * lines[k].ticket.price
    ensures Subsequence(TicketsOf(lines), tickets)
    ensures forall i :: 0 <= i < |tickets| && QtyOf(qtyMap, tickets[i].ticketId) > 0 ==>
      tickets[i] in TicketsOf(lines)
  {
    if tickets == [] then []
    else
      var t := tickets[0];
      var qty := QtyOf(qtyMap, t.ticketId);
      var rest := SelectedLines(tickets[1..], qtyMap);
      if qty > 0 then
        var lines := [Line(t, qty, qty * t.price)] + rest;
        assert TicketsOf(lines) == [t] + TicketsOf(rest);
        assert forall i :: 1 <= i < |tickets| ==> tickets[i] == tickets[1..][i - 1];
        lines
      else
        assert forall i :: 1 <= i < |tickets| ==> tickets[i] == tickets[1..][i - 1];
        rest
  }

  /** The `reduce` over the line totals. */
  function LinesSubtotal(lines: seq<Line>): (sum: int)
    ensures (forall k :: 0 <= k < |lines| ==> lines[k].lineTotal >= 0) ==> sum >= 0
  {
    if lines == [] then 0 else lines[0].lineTotal + LinesSubtotal(lines[1..])
  }

  lemma NonNegativeProduct(a: int, b: int)
    requires 0 <= a && 0 <= b
    ensures 0 <= a * b
  {
  }

  /** Every element of a subsequence comes from the sequence it was taken
      from. */
  lemma {:induction false} SubsequenceMembers<T>(a: seq<T>, b: seq<T>)
    requires Subsequence(a, b)
    ensures forall k :: 0 <= k < |a| ==> a[k] in b
    decreases |b|
  {
    if a != [] {
      if a[0] == b[0] && Subsequence(a[1..], b[1..]) {
        SubsequenceMembers(a[1..], b[1..]);
        forall k | 0 <= k < |a|
          ensures a[k] in b
        {
          if k > 0 {
            assert a[k] == a[1..][k - 1];
          }
        }
      } else {
        SubsequenceMembers(a, b[1..]);
      }
    }
  }

  /** Checkout is disabled exactly when no ticket has a positive quantity. */
  lemma NothingSelectedIff(tickets: seq<Ticket>, qtyMap: map<string, int>)
    ensures |SelectedLines(tickets, qtyMap)| == 0 <==>
      forall i :: 0 <= i < |tickets| ==> QtyOf(qtyMap, tickets[i].ticketId) <= 0
  {
    var lines := SelectedLines(tickets, qtyMap);
    if |lines| > 0 {
      SubsequenceMembers(TicketsOf(lines), tickets);
      assert TicketsOf(lines)[0] == lines[0].ticket;
      var i :| 0 <= i < |tickets| && tickets[i] == lines[0].ticket;
      assert QtyOf(qtyMap, tickets[i].ticketId) > 0;
    }
  }

  /** The purchase section's subtotal is never negative. */
  lemma SubtotalNonNegative(tickets: seq<Ticket>, qtyMap: map<string, int>)
    ensures LinesSubtotal(SelectedLines(tickets, qtyMap)) >= 0
  {
    var lines := SelectedLines(tickets, qtyMap);
    forall k | 0 <= k < |lines|
      ensures lines[k].lineTotal >= 0
    {
      var l := lines[k];
      assert l.qty > 0 && l.lineTotal == l.qty * l.ticket.price;
      NonNegativeProduct(l.qty, l.ticket.price);
    }
  }

  /** The subtotal over the selected lines equals the ticket list's subtotal
      over every ticket, quantities being non-negative: unselected tickets
      add nothing. */
  lemma {:induction false} SubtotalsAgree(tickets: seq<Ticket>, qtyMap: map<string, int>)
    requires NonNegativeQuantities(tickets, qtyMap)
    ensures LinesSubtotal(SelectedLines(tickets, qtyMap)) == TicketTypesList.Subtotal(tickets, qtyMap)
  {
    if tickets != [] {
      assert NonNegativeQuantities(tickets[1..], qtyMap) by {
        forall i | 0 <= i < |tickets[1..]|
          ensures QtyOf(qtyMap, tickets[1..][i].ticketId) >= 0
        {
          assert tickets[1..][i] == tickets[i + 1];
        }
      }
      SubtotalsAgree(tickets[1..], qtyMap);
      assert QtyOf(qtyMap, tickets[0].ticketId) >= 0;
    }
  }

  /** `discount`: nothing without a promo; otherwise the promo amount capped
      at the subtotal and floored at zero. */
  function Discount(promo: Option<AppliedPromo>, subtotal: int): (d: int)
    ensures 0 <= d
    ensures 0 <= subtotal ==> d <= subtotal
    ensures promo.None? ==> d == 0
    ensures promo.Some? && 0 <= promo.value.discountAmount <= subtotal ==> d == promo.value.discountAmount
    ensures promo.Some? && 0 <= subtotal <= promo.value.discountAmount ==> d == subtotal
    ensures promo.Some? && (promo.value.discountAmount <= 0 || subtotal <= 0) ==> d == 0
  {
    if promo.None? then 0 else Max(0, Min(subtotal, promo.value.discountAmount))
  }

  /** `total`: the subtotal after the promo, never negative. */
  function Total(subtotal: int, discount: int): (t: int)
    ensures 0 <= t && subtotal - discount <= t
    ensures 0 <= discount <= subtotal ==> t == subtotal - discount
  {
    Max(0, subtotal - discount)
  }

  /** `pointsUsed`: nothing with the toggle off; otherwise as much of the
      balance as the total absorbs. */
  function PointsUsed(usePoints: bool, pointsBalance: int, total: int): (p: int)
    ensures 0 <= p && p <= Max(0, pointsBalance)
    ensures 0 <= total ==> p <= total
    ensures !usePoints ==> p == 0
    ensures usePoints && 0 <= total && 0 <= pointsBalance ==> p == Min(pointsBalance, total)
  {
    if !usePoints then 0 else Max(0, Min(pointsBalance, total))
  }

  /** `totalAfterPoints`: what is left to pay, never negative. */
  function TotalAfterPoints(total: int, pointsUsed: int): (r: int)
    ensures 0 <= r && total - pointsUsed <= r
    ensures 0 <= pointsUsed <= total ==> r == total - pointsUsed
  {
    Max(0, total - pointsUsed)
  }

  /** The whole pipeline from the subtotal: every figure stays within
      `[0, subtotal]`, and each step subtracts exactly what it claims. */
  lemma PricingPipeline(subtotal: int, promo: Option<AppliedPromo>, usePoints: bool, pointsBalance: int)
    requires 0 <= subtotal
    ensures var d := Discount(promo, subtotal);
      var t := Total(subtotal, d);
      var p := PointsUsed(usePoints, pointsBalance, t);
      var f := TotalAfterPoints(t, p);
      && 0 <= d <= subtotal && t == subtotal - d
      && (promo.Some? && promo.value.discountAmount >= subtotal ==> t == 0)
      && 0 <= p <= t && f == t - p
      && 0 <= f <= t <= subtotal
  {
  }

  /** The order summary, fed this section's `total` and `pointsUsed`, shows the
      same final total as this section puts in the draft. */
  lemma SummaryAgreesOnFinalTotal(usePoints: bool, pointsBalance: int, total: int)
    requires 0 <= total
    ensures OrderSummary.TotalAfterPoints(usePoints, total, PointsUsed(usePoints, pointsBalance, total))
         == TotalAfterPoints(total, PointsUsed(usePoints, pointsBalance, total))
  {
  }

  const SelectTicketFirst: string := "Pilih tiket dulu sebelum memakai promo."

  /** The draft handed to the transaction modal at checkout (`newTrx`): the
      create payload comes from the first selected line. */
  function CheckoutDraft(event: EventInfo, lines: seq<Line>, totalAfterPoints: int,
                         promo: Option<AppliedPromo>, usePoints: bool, pointsUsed: int)
    : (draft: TransactionDetailData)
    requires |lines| > 0
    ensures draft.id == TextId("DRAFT") && draft.status == "DRAFT"
    ensures draft.eventId == Some(event.eventId)
    ensures draft.ticketId == Some(lines[0].ticket.ticketId) && draft.qty == Some(lines[0].qty)
    ensures draft.pointsUsed == Some(if usePoints then pointsUsed else 0)
    ensures draft.couponId == (if promo.Some? then Some(promo.value.couponId) else None)
    ensures |draft.tickets| == |lines| && draft.total == totalAfterPoints
    ensures forall k :: 0 <= k < |lines| ==> draft.tickets[k].amount == lines[k].lineTotal
  {
    TransactionDetailData(
      id := TextId("DRAFT"),
      eventName := event.title,
      eventDate := event.startDate,
      status := "DRAFT",
      dateline := Some("(jika belum bayar)"),
      tickets := seq(|lines|, k requires 0 <= k < |lines| =>
        TicketLine(IntToString(lines[k].qty) + "x " + lines[k].ticket.name, lines[k].lineTotal)),
      total := totalAfterPoints,
      image := Some(event.image),
      eventId := Some(event.eventId),
      ticketId := Some(lines[0].ticket.ticketId),
      qty := Some(lines[0].qty),
      couponId := if promo.Some? then Some(promo.value.couponId) else None,
      pointsUsed := Some(if usePoints then pointsUsed else 0))
  }

  /** The checkout draft is a draft to the modal, and with a session token and
      non-empty ids the modal's create request carries the first line's ticket
      and quantity and the points actually used. */
  lemma DraftFeedsCreate(event: EventInfo, lines: seq<Line>, totalAfterPoints: int,
                         promo: Option<AppliedPromo>, usePoints: bool, pointsUsed: int)
    requires |lines| > 0 && event.eventId != "" && lines[0].ticket.ticketId != ""
    ensures var draft := CheckoutDraft(event, lines, totalAfterPoints, promo, usePoints, pointsUsed);
      && TransactionDetail.IsDraft(Some(draft))
      && TransactionDetail.BuildPayload(Some(draft), true).Ok?
      && TransactionDetail.BuildPayload(Some(draft), true).value
         == TransactionDetail.CreatePayload(
              event.eventId, lines[0].ticket.ticketId, lines[0].qty,
              draft.couponId, if usePoints then pointsUsed else 0)
      && TransactionDetail.BuildPayload(Some(draft), false) == Err(TransactionDetail.NoAccessToken)
  {
  }

  /** The component's state cells; the event, the ticket list, whether a
      session token exists and the fetched points balance are fixed inputs. */
  class Purchase {
    const event: EventInfo
    const tickets: seq<Ticket>
    const hasToken: bool
    const pointsBalance: int

    var qtyMap: map<string, int>
    var promoCode: string
    var promoLoading: bool
    var promoError: Option<string>
    var appliedPromo: Option<AppliedPromo>
    var usePoints: bool
    var openTrx: bool
    var trx: Option<TransactionDetailData>

    /** Points are never switched on without a session token. */
    ghost predicate Valid()
      reads this
    {
      usePoints ==> hasToken
    }

    constructor (event: EventInfo, tickets: seq<Ticket>, hasToken: bool, pointsBalance: int)
      ensures this.event == event && this.tickets == tickets
      ensures this.hasToken == hasToken && this.pointsBalance == pointsBalance
      ensures qtyMap == map[] && promoCode == "" && !promoLoading && promoError == None
      ensures appliedPromo == None && !usePoints && !openTrx && trx == None
      ensures Valid()
    {
      this.event := event;
      this.tickets := tickets;
      this.hasToken := hasToken;
      this.pointsBalance := pointsBalance;
      qtyMap := map[];
      promoCode := "";
      promoLoading := false;
      promoError := None;
      appliedPromo := None;
      usePoints := false;
      openTrx := false;
      trx := None;
    }

    function Lines(): seq<Line>
      reads this
    {
      SelectedLines(tickets, qtyMap)
    }

    function Subtotal(): int
      reads this
    {
      LinesSubtotal(Lines())
    }

    function TotalNow(): int
      reads this
    {
      Total(Subtotal(), Discount(appliedPromo, Subtotal()))
    }

    function PointsUsedNow(): int
      reads this
    {
      PointsUsed(usePoints, pointsBalance, TotalNow())
    }

    function TotalAfterPointsNow(): int
      reads this
    {
      TotalAfterPoints(TotalNow(), PointsUsedNow())
    }

    /** `checkoutDisabled`. */
    predicate CheckoutDisabled()
      reads this
    {
      |Lines()| == 0
    }

    /** `setQty`: only the given ticket's entry changes. */
    method SetQty(ticketId: string, nextQty: int)
      modifies this`qtyMap
      ensures qtyMap == old(qtyMap)[ticketId := nextQty]
      ensures QtyOf(qtyMap, ticketId) == nextQty
      ensures forall id :: id != ticketId ==> QtyOf(qtyMap, id) == QtyOf(old(qtyMap), id)
    {
      qtyMap := qtyMap[ticketId := nextQty];
    }

    /** Typing in the promo field drops any applied promo and error. */
    method OnPromoCodeChange(v: string)
      modifies this`promoCode, this`promoError, this`appliedPromo
      ensures promoCode == v && promoError == None && appliedPromo == None
    {
      promoCode := v;
      promoError := None;
      if appliedPromo.Some? {
        appliedPromo := None;
      }
    }

    /** `applyPromo`, with the validation request's outcome as `validation`.
        A blank code only clears the error; with nothing selected it reports
        an error and sends nothing; otherwise the request is sent and its
        outcome sets or clears the promo. */
    method ApplyPromo(validation: Result<AppliedPromo, RequestFailure>) returns (requested: bool)
      modifies this`promoError, this`appliedPromo, this`promoLoading
      ensures requested <==> !IsBlank(promoCode) && Subtotal() > 0
      ensures IsBlank(promoCode) ==> promoError == None && appliedPromo == old(appliedPromo)
      ensures !IsBlank(promoCode) && Subtotal() <= 0 ==>
        promoError == Some(SelectTicketFirst) && appliedPromo == old(appliedPromo)
      ensures requested && validation.Ok? ==> appliedPromo == Some(validation.value) && promoError == None
      ensures requested && validation.Err? ==>
        appliedPromo == None && promoError == Some(FailureToast(validation.error, "Failed to apply promo."))
      ensures promoLoading == old(promoLoading) || (requested && !promoLoading)
    {
      promoError := None;
      var code := Trim(promoCode);
      if code == "" {
        return false;
      }
      if Subtotal() <= 0 {
        promoError := Some(SelectTicketFirst);
        return false;
      }
      requested := true;
      promoLoading := true;
      match validation {
        case Ok(promo) =>
          appliedPromo := Some(promo);
        case Err(failure) =>
          appliedPromo := None;
          promoError := Some(FailureToast(failure, "Failed to apply promo."));
      }
      promoLoading := false;
    }

    /** `clearPromo`. */
    method ClearPromo()
      modifies this`promoCode, this`promoError, this`appliedPromo
      ensures promoCode == "" && promoError == None && appliedPromo == None
    {
      appliedPromo := None;
      promoError := None;
      promoCode := "";
    }

    /** The points toggle handler: switching on without a token is refused. */
    method OnToggleUsePoints(next: bool)
      modifies this`usePoints
      ensures usePoints == (next && hasToken)
      ensures Valid()
    {
      if next && !hasToken {
        usePoints := false;
        return;
      }
      usePoints := next;
    }

    /** `onCheckout`: nothing without a selected line; points switched on
        without a token are switched off instead; otherwise the draft is built
        and the modal opened. */
    method OnCheckout()
      modifies this`usePoints, this`trx, this`openTrx
      ensures |Lines()| == 0 ==>
        usePoints == old(usePoints) && trx == old(trx) && openTrx == old(openTrx)
      ensures |Lines()| > 0 && !hasToken && old(usePoints) ==>
        !usePoints && trx == old(trx) && openTrx == old(openTrx)
      ensures |Lines()| > 0 && (hasToken || !old(usePoints)) ==>
        && usePoints == old(usePoints) && openTrx
        && trx == Some(CheckoutDraft(event, Lines(), TotalAfterPointsNow(), appliedPromo,
                                     usePoints, PointsUsedNow()))
      ensures old(Valid()) ==> Valid()
    {
      var lines := Lines();
      if |lines| == 0 {
        return;
      }
      if !hasToken && usePoints {
        usePoints := false;
        return;
      }
      trx := Some(CheckoutDraft(event, lines, TotalAfterPointsNow(), appliedPromo,
                                usePoints, PointsUsedNow()));
      openTrx := true;
    }

    /** The modal's `onClose`. */
    method CloseTrx()
      modifies this`openTrx
      ensures !openTrx
    {
      openTrx := false;
    }
  }
}
