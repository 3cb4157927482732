/** The client-side transaction record of `src/app/transactions/types.ts`:
    both the draft built at checkout and the record mapped from the server. */
module TransactionTypes {

  import opened Options

  /** `id: string | number`: "DRAFT" before creation, the server's id after. */
  datatype TrxId = TextId(text: string) | NumberId(number: int)

  /** One ticket row of the modal; `amount` is the rupiah figure it shows formatted. */
  datatype TicketLine = TicketLine(name: string, amount: int)

  /** A transaction as the modal displays it, with the optional create payload. */
  datatype TransactionDetailData = TransactionDetailData(
    id: TrxId,
    eventName: string,
    eventDate: string,
    status: string,
    dateline: Option<string>,
    tickets: seq<TicketLine>,
    total: int,
    image: Option<string>,
    eventId: Option<string>,
    ticketId: Option<string>,
    qty: Option<int>,
    couponId: Option<string>,
    pointsUsed: Option<int>)
}
