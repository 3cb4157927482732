/** The API shapes of `src/types/events.ts` that the purchase flow reads. */
module EventTypes {

  /** A ticket type of an event; `price` is in whole rupiah. */
  datatype Ticket = Ticket(ticketId: string, name: string, price: nat, stock: int)

  /** The part of an event that the purchase section receives as a prop. */
  datatype EventInfo = EventInfo(eventId: string, title: string, startDate: string, image: string)
}
