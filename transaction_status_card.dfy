/** A transaction status filter card: active when the URL's `status` equals
    its value; a click toggles the filter and goes back to page 1. */
module TransactionStatusCard {

  /** The four filter values a card can carry. */
  datatype StatusValue = ToPay | ToConfirm | MyBooking | ToRate

  /** The value's text in the URL. */
  function Code(v: StatusValue): (code: string)
    ensures code != ""
  {
    match v
    case ToPay => "to-pay"
    case ToConfirm => "to-confirm"
    case MyBooking => "my-booking"
    case ToRate => "to-rate"
  }

  /** Distinct values have distinct codes, so at most one card is active. */
  lemma CodeInjective(a: StatusValue, b: StatusValue)
    ensures Code(a) == Code(b) <==> a == b
  {
  }

  /** `isActive`. */
  predicate IsActive(selected: string, v: StatusValue) {
    selected == Code(v)
  }

  /** The filter a click on card `v` selects: cleared when active, the card's
      own value otherwise. */
  function NextSelected(selected: string, v: StatusValue): (next: string)
    ensures IsActive(selected, v) ==> next == ""
    ensures !IsActive(selected, v) ==> next == Code(v)
    ensures IsActive(next, v) <==> !IsActive(selected, v)
  {
    if IsActive(selected, v) then "" else Code(v)
  }

  /** Two clicks on one card from no filter come back to no filter, and a
      click on another card switches the filter to it. */
  lemma ToggleProperties(v: StatusValue, w: StatusValue, selected: string)
    ensures NextSelected(NextSelected("", v), v) == ""
    ensures IsActive(selected, v) && v != w ==> IsActive(NextSelected(selected, w), w)
  {
  }

  /** The two URL-backed cells the card writes. */
  class Filter {
    var selected: string
    var page: int

    /** Defaults: no filter, page 1. */
    constructor ()
      ensures selected == "" && page == 1
    {
      selected := "";
      page := 1;
    }

    /** The card's `onClick`. */
    method Click(v: StatusValue)
      modifies this
      ensures selected == NextSelected(old(selected), v) && page == 1
    {
      var next := if IsActive(selected, v) then "" else Code(v);
      selected := next;
      page := 1;
    }
  }
}
