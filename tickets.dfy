/**
 * The ticket record stored per support channel, the record a new ticket
 * starts from, and the pure read-outs the receipt shows: the status
 * badge, the payment-method label and which customer buttons are enabled.
 */
module Tickets {
  import opened Basics
  import opened Pricing

  datatype Status = New | Cart | AwaitingPayment | Verifying | Paid | Rejected | Closed

  /** One entry of `DB.tickets`, keyed elsewhere by the ticket's channel id. */
  datatype TicketRecord = TicketRecord(
    ticketCode: string,
    customerId: UserId,
    staffId: Option<UserId>,
    status: Status,
    locked: bool,
    items: seq<Item>,
    paymentMethod: Option<string>,
    slipUrl: Option<string>,
    receiptMessageId: Option<MessageId>,
    closed: bool,
    createdAt: Timestamp,
    updatedAt: Timestamp)

  /** The test `findOpenTicketByUser` applies to each record. */
  predicate OpenFor(t: TicketRecord, u: UserId) {
    t.customerId == u && !t.closed
  }

  /**
   * The lifecycle rule the handlers keep: a ticket that awaits payment or
   * has a slip being verified has a locked total.  (PAID is not covered:
   * the "mark paid" button sets it on an unlocked ticket.)
   */
  predicate PaymentStagesLocked(t: TicketRecord) {
    (t.status == AwaitingPayment || t.status == Verifying) ==> t.locked
  }

  /** Which of the four customer buttons under the receipt can be pressed. */
  datatype CustomerButtons = CustomerButtons(callStaff: bool, check: bool, pay: bool, slip: bool)

  /**
   * The enabled flags `customerRow` sets: "call staff" and "check" always,
   * "pay" once the total is locked, "send slip" once it is locked and a
   * payment method is set.
   */
  function CustomerRow(t: TicketRecord): (row: CustomerButtons)
    ensures row.callStaff && row.check
    ensures row.pay <==> t.locked
    ensures row.slip <==> t.locked && Truthy(t.paymentMethod)
  {
    CustomerButtons(true, true, t.locked, t.locked && Truthy(t.paymentMethod))
  }

  /**
   * The record `createTicketChannel` stores for a new ticket, with the id of
   * the pinned receipt message already filled in.
   */
  function NewTicket(code: string, customer: UserId, receipt: MessageId, now: Timestamp): (t: TicketRecord)
    ensures OpenFor(t, customer) && t.ticketCode == code && t.receiptMessageId == Some(receipt)
    ensures PaymentStagesLocked(t)
    ensures t.status == New && !t.locked && t.items == [] && CalcSubtotal(Some(t.items)) == 0.0
    ensures !Truthy(t.staffId) && !Truthy(t.paymentMethod) && t.slipUrl.None?
    ensures !CustomerRow(t).pay && !CustomerRow(t).slip
    ensures t.createdAt == t.updatedAt == now
  {
    TicketRecord(code, customer, None, New, false, [], None, None, Some(receipt), false, now, now)
  }

  /** The receipt's status line, `statusBadge`. */
  function StatusBadge(s: Status): string
  {
    match s
    case New => "🟦 NEW"
    case Cart => "🛒 CART"
    case AwaitingPayment => "⏳ AWAITING PAYMENT"
    case Verifying => "🔍 VERIFYING"
    case Paid => "✅ PAID"
    case Rejected => "❌ REJECTED"
    case Closed => "🔒 CLOSED"
  }

  /** Distinct statuses show distinct badges, so the receipt always tells them apart. */
  lemma StatusBadgeInjective(a: Status, b: Status)
    ensures StatusBadge(a) == StatusBadge(b) ==> a == b
  {
  }

  const PromptPay := "PROMPTPAY"
  const Bank := "BANK"
  const TrueWallet := "TRUEWALLET"
  const NotChosenLabel := "ยังไม่เลือก"

  /** The three methods the payment menu offers. */
  predicate KnownMethod(m: Option<string>) {
    m == Some(PromptPay) || m == Some(Bank) || m == Some(TrueWallet)
  }

  /** `paymentLabel`: the receipt's payment line; anything but the three known methods reads "not chosen". */
  function PaymentLabel(m: Option<string>): (shown: string)
    ensures shown == NotChosenLabel <==> !KnownMethod(m)
  {
    if m == Some(PromptPay) then "📱 PromptPay QR"
    else if m == Some(Bank) then "🏦 โอนธนาคาร"
    else if m == Some(TrueWallet) then "👛 TrueWallet"
    else NotChosenLabel
  }
}
