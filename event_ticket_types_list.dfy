/** The ticket picker of the event page: per-ticket increment and decrement
    buttons clamped to `[0, stock]`, and the running subtotal. The component
    keeps no state of its own; it hands each next quantity to the parent. */
module TicketTypesList {

  import opened EventTypes
  import opened JsMath

  /** `qtyMap[t.ticket_id] ?? 0`: a ticket never touched counts as zero. */
  function QtyOf(qtyMap: map<string, int>, ticketId: string): int {
    if ticketId in qtyMap then qtyMap[ticketId] else 0
  }

  /** `onInc`: one more ticket, but never above the stock. */
  function OnInc(qtyMap: map<string, int>, t: Ticket): (next: int)
    ensures next <= t.stock && next <= QtyOf(qtyMap, t.ticketId) + 1
    ensures QtyOf(qtyMap, t.ticketId) < t.stock ==> next == QtyOf(qtyMap, t.ticketId) + 1
    ensures QtyOf(qtyMap, t.ticketId) >= t.stock ==> next == t.stock
    ensures 0 <= QtyOf(qtyMap, t.ticketId) && 0 <= t.stock ==> 0 <= next
  {
    var current := QtyOf(qtyMap, t.ticketId);
    Min(current + 1, t.stock)
  }

  /** `onDec`: one ticket fewer, but never below zero. */
  function OnDec(qtyMap: map<string, int>, t: Ticket): (next: int)
    ensures 0 <= next && next >= QtyOf(qtyMap, t.ticketId) - 1
    ensures 0 < QtyOf(qtyMap, t.ticketId) ==> next == QtyOf(qtyMap, t.ticketId) - 1
    ensures QtyOf(qtyMap, t.ticketId) <= t.stock && 0 <= t.stock ==> next <= t.stock
  {
    var current := QtyOf(qtyMap, t.ticketId);
    Max(current - 1, 0)
  }

  /** `disableInc`: the increment button is greyed out at or above the stock. */
  predicate IncDisabled(qtyMap: map<string, int>, t: Ticket) {
    QtyOf(qtyMap, t.ticketId) >= t.stock
  }

  /** `disableDec`: the decrement button is greyed out at or below zero. */
  predicate DecDisabled(qtyMap: map<string, int>, t: Ticket) {
    QtyOf(qtyMap, t.ticketId) <= 0
  }

  /** For a quantity within the stock, the increment button is enabled exactly
      when pressing it would add a ticket; a disabled press would leave the
      quantity at the stock. */
  lemma IncEnabledIffItAdds(qtyMap: map<string, int>, t: Ticket)
    requires QtyOf(qtyMap, t.ticketId) <= t.stock
    ensures !IncDisabled(qtyMap, t) <==> OnInc(qtyMap, t) == QtyOf(qtyMap, t.ticketId) + 1
    ensures IncDisabled(qtyMap, t) ==> OnInc(qtyMap, t) == t.stock
  {
  }

  /** For a non-negative quantity, the decrement button is enabled exactly when
      pressing it would remove a ticket. */
  lemma DecEnabledIffItRemoves(qtyMap: map<string, int>, t: Ticket)
    requires 0 <= QtyOf(qtyMap, t.ticketId)
    ensures !DecDisabled(qtyMap, t) <==> OnDec(qtyMap, t) == QtyOf(qtyMap, t.ticketId) - 1
    ensures DecDisabled(qtyMap, t) ==> OnDec(qtyMap, t) == 0
  {
  }

  /** Decrementing right after an increment that was below the stock restores
      the quantity (the parent stores each result with `setQty`). */
  lemma DecUndoesInc(qtyMap: map<string, int>, t: Ticket)
    requires 0 <= QtyOf(qtyMap, t.ticketId) < t.stock
    ensures OnDec(qtyMap[t.ticketId := OnInc(qtyMap, t)], t) == QtyOf(qtyMap, t.ticketId)
  {
  }

  /** Incrementing right after a decrement from a positive quantity within the
      stock restores the quantity. */
  lemma IncUndoesDec(qtyMap: map<string, int>, t: Ticket)
    requires 0 < QtyOf(qtyMap, t.ticketId) <= t.stock
    ensures OnInc(qtyMap[t.ticketId := OnDec(qtyMap, t)], t) == QtyOf(qtyMap, t.ticketId)
  {
  }

  /** Every ticket's quantity is non-negative (true of every value the two
      buttons produce from a non-negative start). */
  predicate NonNegativeQuantities(tickets: seq<Ticket>, qtyMap: map<string, int>) {
    forall i :: 0 <= i < |tickets| ==> QtyOf(qtyMap, tickets[i].ticketId) >= 0
  }

  /** `subtotal`: the sum of `qty * price` over every ticket, untouched ones
      adding nothing. */
  function Subtotal(tickets: seq<Ticket>, qtyMap: map<string, int>): (sum: int)
    ensures NonNegativeQuantities(tickets, qtyMap) ==> sum >= 0
    ensures (forall i :: 0 <= i < |tickets| ==> tickets[i].ticketId !in qtyMap) ==> sum == 0
  {
    if tickets == [] then 0
    else QtyOf(qtyMap, tickets[0].ticketId) * tickets[0].price + Subtotal(tickets[1..], qtyMap)
  }
}
