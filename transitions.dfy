/**
 * What the bot's three event handlers do to a ticket record: the button
 * handler, the staff form (modal) handler and the message listener that
 * takes payment slips.  Each handler is a function from the channel's
 * record (or its absence) and the event to an `Outcome`: either the
 * updated record, or the reason nothing changed.  The guards are the
 * ones the handlers actually test, in the order they test them.
 */
module Transitions {
  import opened Basics
  import opened Pricing
  import opened Tickets

  /** Why a handler left the ticket as it was. */
  datatype Reason =
    | NoTicket           // the channel has no ticket record
    | NotStaff           // a staff-only action from a member without the staff role
    | NotLocked          // "pay" pressed before staff locked the total
    | InvalidQtyOrPrice  // the form's qty or unit price failed the check
    | ItemNotFound       // the form's line number names no line
    | SlipNotReady       // a slip sent before the total is locked and a method chosen
    | ReplyOnly          // the action only answers (a menu, a form, a summary)
    | Ignored            // the event is not for this handler, or it returns silently

  datatype Outcome = Updated(ticket: TicketRecord) | Kept(reason: Reason)

  /**
   * What every handler keeps across an update: the ticket's identity
   * (code, owner, creation time, receipt message), a closed ticket stays
   * closed, and lines that passed the form's check still all pass it.
   */
  predicate Evolves(t: TicketRecord, u: TicketRecord) {
    && u.ticketCode == t.ticketCode
    && u.customerId == t.customerId
    && u.createdAt == t.createdAt
    && u.receiptMessageId == t.receiptMessageId
    && (t.closed ==> u.closed)
    && (ItemsValid(t.items) ==> ItemsValid(u.items))
  }

  /** The assigned staff member: kept when one is set, otherwise the member acting now. */
  function AssignOnce(staffId: Option<UserId>, actor: UserId): Option<UserId> {
    if Truthy(staffId) then staffId else Some(actor)
  }

  // ---------------------------------------------------------------------
  // The assignments each handler branch makes to the ticket object
  // ---------------------------------------------------------------------

  /** The add form's change: the line goes last, the acting member is assigned if nobody is, and the status is CART. */
  function AppendItem(t: TicketRecord, it: Item, actor: UserId): (u: TicketRecord)
    ensures |u.items| == |t.items| + 1 && u.items[..|t.items|] == t.items && u.items[|t.items|] == it
    ensures u.status == Cart
    ensures Truthy(t.staffId) ==> u.staffId == t.staffId
    ensures !Truthy(t.staffId) ==> u.staffId == Some(actor)
    ensures u == t.(items := u.items, staffId := u.staffId, status := u.status)
    ensures CalcSubtotal(Some(u.items)) == CalcSubtotal(Some(t.items)) + LineTotal(it)
  {
    SumLinesAppend(t.items, it);
    assert (t.items + [it])[..|t.items|] == t.items;
    t.(items := t.items + [it], staffId := AssignOnce(t.staffId, actor), status := Cart)
  }

  /** The edit form's change: new qty and unit price for line `k`, whose name stays, and the status is CART. */
  function ReplaceQtyPrice(t: TicketRecord, k: nat, qty: real, unit: real): (u: TicketRecord)
    requires k < |t.items|
    ensures |u.items| == |t.items|
    ensures u.items[k] == Item(t.items[k].name, qty, unit)
    ensures forall j :: 0 <= j < |t.items| && j != k ==> u.items[j] == t.items[j]
    ensures u.status == Cart
    ensures u == t.(items := u.items, status := u.status)
    ensures CalcSubtotal(Some(u.items)) == CalcSubtotal(Some(t.items)) - LineTotal(t.items[k]) + qty * unit
  {
    var it := t.items[k].(qty := qty, unitPrice := unit);
    SumLinesReplace(t.items, k, it);
    t.(items := t.items[k := it], status := Cart)
  }

  /** The delete form's change: line `k` goes, and the status is CART while lines remain and NEW once none do. */
  function RemoveItem(t: TicketRecord, k: nat): (u: TicketRecord)
    requires k < |t.items|
    ensures |u.items| == |t.items| - 1
    ensures forall j :: 0 <= j < k ==> u.items[j] == t.items[j]
    ensures forall j :: k <= j < |u.items| ==> u.items[j] == t.items[j + 1]
    ensures multiset(u.items) + multiset{t.items[k]} == multiset(t.items)
    ensures u.status == if u.items == [] then New else Cart
    ensures u == t.(items := u.items, status := u.status)
    ensures CalcSubtotal(Some(u.items)) == CalcSubtotal(Some(t.items)) - LineTotal(t.items[k])
  {
    var rest := Splice(t.items, k);
    SumLinesRemove(t.items, k);
    t.(items := rest, status := if rest == [] then New else Cart)
  }

  /** Removal of one line: the lines before `k` stay put, the ones after it move down by one, and only line `k` is dropped. */
  function Splice(s: seq<Item>, k: nat): (r: seq<Item>)
    requires k < |s|
    ensures |r| == |s| - 1
    ensures forall j :: 0 <= j < k ==> r[j] == s[j]
    ensures forall j :: k <= j < |r| ==> r[j] == s[j + 1]
    ensures multiset(r) + multiset{s[k]} == multiset(s)
  {
    assert s == s[..k] + [s[k]] + s[k + 1..];
    assert multiset(s) == multiset(s[..k]) + multiset{s[k]} + multiset(s[k + 1..]);
    s[..k] + s[k + 1..]
  }

  /** Locking the total: the ticket awaits payment and the acting member is assigned if nobody is. */
  function Lock(t: TicketRecord, actor: UserId): (u: TicketRecord)
    ensures u.locked && u.status == AwaitingPayment
    ensures Truthy(t.staffId) ==> u.staffId == t.staffId
    ensures !Truthy(t.staffId) ==> u.staffId == Some(actor)
    ensures u.items == t.items && u.paymentMethod == t.paymentMethod
    ensures u == t.(locked := u.locked, status := u.status, staffId := u.staffId)
    ensures CustomerRow(u).pay && (CustomerRow(u).slip <==> Truthy(t.paymentMethod))
  {
    t.(locked := true, status := AwaitingPayment, staffId := AssignOnce(t.staffId, actor))
  }

  /** Unlocking the total: the ticket is back to CART. */
  function Unlock(t: TicketRecord): (u: TicketRecord)
    ensures !u.locked && u.status == Cart
    ensures u.items == t.items && u.paymentMethod == t.paymentMethod
    ensures u == t.(locked := u.locked, status := u.status)
    ensures !CustomerRow(u).pay && !CustomerRow(u).slip
  {
    t.(locked := false, status := Cart)
  }

  /** The chosen payment method is whatever follows the `dbx_pay_` prefix of the button id, known or not. */
  function ChoosePayment(t: TicketRecord, choice: string): (u: TicketRecord)
    ensures u.paymentMethod == Some(choice)
    ensures u == t.(paymentMethod := u.paymentMethod)
    ensures CustomerRow(u).slip <==> t.locked && choice != ""
  {
    t.(paymentMethod := Some(choice))
  }

  /** A slip is taken: its URL replaces any earlier one and the ticket waits for staff to verify it. */
  function AcceptSlip(t: TicketRecord, url: string): (u: TicketRecord)
    ensures u.slipUrl == Some(url) && u.status == Verifying
    ensures u == t.(slipUrl := u.slipUrl, status := u.status)
  {
    t.(slipUrl := Some(url), status := Verifying)
  }

  /** The PAID verdict, from the slip check or from the "mark paid" button; nothing else changes. */
  function MarkPaid(t: TicketRecord): (u: TicketRecord)
    ensures u.status == Paid && u == t.(status := Paid)
  {
    t.(status := Paid)
  }

  /** The REJECTED verdict (wrong transfer note, or a bad slip); the slip stays on record. */
  function Reject(t: TicketRecord): (u: TicketRecord)
    ensures u.status == Rejected && u.slipUrl == t.slipUrl && u == t.(status := Rejected)
  {
    t.(status := Rejected)
  }

  /** Closing: status CLOSED and the closed flag set, so no customer has it as an open ticket. */
  function Close(t: TicketRecord): (u: TicketRecord)
    ensures u.status == Closed && u.closed
    ensures forall v :: !OpenFor(u, v)
    ensures u == t.(status := u.status, closed := u.closed)
  {
    t.(status := Closed, closed := true)
  }

  /** What `updateReceipt` does to the record: the time of the last change is now. */
  function Touch(t: TicketRecord, now: Timestamp): (u: TicketRecord)
    ensures u.updatedAt == now && u == t.(updatedAt := now)
  {
    t.(updatedAt := now)
  }

  // ---------------------------------------------------------------------
  // Button handler
  // ---------------------------------------------------------------------

  const CallStaffButton := "dbx_cust_call_staff"
  const CheckButton := "dbx_cust_check"
  const PayButton := "dbx_cust_pay"
  const SlipButton := "dbx_cust_slip"
  const PayPrefix := "dbx_pay_"
  const StaffPrefix := "dbx_st_"
  const VerifyPrefix := "dbx_verify_"
  const AddButton := "dbx_st_add"
  const EditButton := "dbx_st_edit"
  const DeleteButton := "dbx_st_del"
  const LockButton := "dbx_st_lock"
  const UnlockButton := "dbx_st_unlock"
  const VerifyButton := "dbx_st_verify"
  const VerifyOkButton := "dbx_verify_ok"
  const PaidButton := "dbx_st_paid"
  const BadNoteButton := "dbx_verify_bad_note"
  const BadSlipButton := "dbx_verify_bad"
  const CloseButton := "dbx_st_close"
  const OpenTicketButton := "dbx_open_ticket"

  /** Button ids the staff-role check guards. */
  predicate StaffOnly(id: string) {
    StartsWith(id, StaffPrefix) || StartsWith(id, VerifyPrefix)
  }

  /**
   * The staff control buttons that change the ticket: lock and unlock the
   * total, the two "paid" verdicts, the two rejections, and close.  `None`
   * for an id none of them has.
   */
  function StaffAction(tk: TicketRecord, id: string, actor: UserId): (u: Option<TicketRecord>)
    ensures id == LockButton ==> u == Some(Lock(tk, actor))
    ensures id == UnlockButton ==> u == Some(Unlock(tk))
    ensures id == VerifyOkButton || id == PaidButton ==> u == Some(MarkPaid(tk))
    ensures id == BadNoteButton || id == BadSlipButton ==> u == Some(Reject(tk))
    ensures id == CloseButton ==> u == Some(Close(tk))
    ensures u.Some? <==> id in {LockButton, UnlockButton, VerifyOkButton, PaidButton, BadNoteButton, BadSlipButton, CloseButton}
    ensures u.Some? ==> Evolves(tk, u.value)
  {
    if id == LockButton then Some(Lock(tk, actor))
    else if id == UnlockButton then Some(Unlock(tk))
    else if id == VerifyOkButton || id == PaidButton then Some(MarkPaid(tk))
    else if id == BadNoteButton || id == BadSlipButton then Some(Reject(tk))
    else if id == CloseButton then Some(Close(tk))
    else None
  }

  /** The ids the customer section of the button handler answers, before the staff check. */
  predicate CustomerSection(id: string) {
    id == CallStaffButton || id == CheckButton || id == PayButton || id == SlipButton || StartsWith(id, PayPrefix)
  }

  /**
   * The customer section: "call staff", "check" and "send slip" only
   * answer; "pay" opens the payment menu once the total is locked; a
   * `dbx_pay_*` button records the method, with no test of `locked`.
   */
  function CustomerButton(tk: TicketRecord, id: string, now: Timestamp): (o: Outcome)
    ensures o.Updated? <==> !(id == CallStaffButton || id == CheckButton || id == PayButton || id == SlipButton) && StartsWith(id, PayPrefix)
    ensures id == PayButton ==> (o == Kept(NotLocked) <==> !tk.locked)
    ensures o.Updated? ==> o.ticket == Touch(ChoosePayment(tk, id[|PayPrefix|..]), now)
    ensures o.Updated? ==> Evolves(tk, o.ticket) && o.ticket.updatedAt == now
  {
    if id == CallStaffButton || id == CheckButton then Kept(ReplyOnly)
    else if id == PayButton then (if tk.locked then Kept(ReplyOnly) else Kept(NotLocked))
    else if id == SlipButton then Kept(ReplyOnly)
    else if StartsWith(id, PayPrefix) then Updated(Touch(ChoosePayment(tk, id[|PayPrefix|..]), now))
    else Kept(Ignored)
  }

  /**
   * The staff section: `dbx_st_*` and `dbx_verify_*` ids are refused to a
   * member without the staff role; the buttons that open a form or the
   * verify menu only answer; the rest change the ticket.
   */
  function StaffButton(tk: TicketRecord, id: string, staff: bool, actor: UserId, now: Timestamp): (o: Outcome)
    ensures StaffOnly(id) && !staff ==> o == Kept(NotStaff)
    ensures o.Updated? <==> !(StaffOnly(id) && !staff) && StaffAction(tk, id, actor).Some?
    ensures o.Updated? ==> o.ticket == Touch(StaffAction(tk, id, actor).value, now)
    ensures o.Updated? ==> Evolves(tk, o.ticket) && o.ticket.updatedAt == now
  {
    if StaffOnly(id) && !staff then Kept(NotStaff)
    else if id == AddButton || id == EditButton || id == DeleteButton || id == VerifyButton then Kept(ReplyOnly)
    else match StaffAction(tk, id, actor)
      case Some(u) => Updated(Touch(u, now))
      case None => Kept(Ignored)
  }

  /**
   * The button handler from the point where it looks up the channel's
   * ticket (the "open ticket" button, handled before that lookup, is
   * `Store.TicketStore.CreateTicketChannel`).  `staff` says whether the
   * presser holds the staff role; every update ends with `updateReceipt`.
   */
  function Button(t: Option<TicketRecord>, id: string, staff: bool, actor: UserId, now: Timestamp): (o: Outcome)
    requires id != OpenTicketButton
    ensures t.None? ==> o == Kept(NoTicket)
    ensures o.Updated? ==> t.Some? && Evolves(t.value, o.ticket) && o.ticket.updatedAt == now
  {
    if t.None? then Kept(NoTicket)
    else if CustomerSection(id) then CustomerButton(t.value, id, now)
    else StaffButton(t.value, id, staff, actor, now)
  }

  // ---------------------------------------------------------------------
  // Staff form (modal) handler
  // ---------------------------------------------------------------------

  const AddForm := "dbx_modal_add"
  const EditForm := "dbx_modal_edit"
  const DeleteForm := "dbx_modal_del"

  /**
   * The form's text fields after `Number(...)`: `None` stands for a value
   * that is not finite (NaN or an infinity).
   */
  datatype FormFields = FormFields(name: string, qty: Option<real>, unit: Option<real>, position: Option<real>)

  /** The form's check: qty finite and above 0, unit price finite and at least 0. */
  predicate ValidQtyPrice(qty: Option<real>, unit: Option<real>) {
    qty.Some? && qty.value > 0.0 && unit.Some? && unit.value >= 0.0
  }

  /** The 1-based line number shown to users for the line at 0-based index `k`. */
  function OneBased(k: nat): real {
    (k + 1) as real
  }

  /**
   * The line number typed into the form names a line exactly when it is a
   * whole line number from 1 to the number of lines.
   */
  function ItemIndex(position: Option<real>, count: nat): (k: Option<nat>)
    ensures k.Some? ==> k.value < count && position == Some(OneBased(k.value))
    ensures forall j: nat :: j < count && position == Some(OneBased(j)) ==> k == Some(j)
  {
    if position.Some? && position.value == position.value.Floor as real && 1 <= position.value.Floor <= count
    then Some(position.value.Floor - 1)
    else None
  }

  /**
   * The form handler: the staff-role check comes first, then the ticket
   * lookup, then the form's own checks.  No branch tests `locked`.
   */
  function Modal(t: Option<TicketRecord>, formId: string, staff: bool, actor: UserId, f: FormFields, now: Timestamp): (o: Outcome)
    ensures !staff ==> o == Kept(NotStaff)
    ensures staff && t.None? ==> o == Kept(NoTicket)
    ensures o.Updated? ==> t.Some? && Evolves(t.value, o.ticket) && o.ticket.updatedAt == now
  {
    if !staff then Kept(NotStaff)
    else if t.None? then Kept(NoTicket)
    else
      var tk := t.value;
      if formId == AddForm then
        if !ValidQtyPrice(f.qty, f.unit) then Kept(InvalidQtyOrPrice)
        else Updated(Touch(AppendItem(tk, Item(f.name, f.qty.value, f.unit.value), actor), now))
      else if formId == EditForm then
        match ItemIndex(f.position, |tk.items|)
        case None => Kept(ItemNotFound)
        case Some(k) =>
          if !ValidQtyPrice(f.qty, f.unit) then Kept(InvalidQtyOrPrice)
          else Updated(Touch(ReplaceQtyPrice(tk, k, f.qty.value, f.unit.value), now))
      else if formId == DeleteForm then
        match ItemIndex(f.position, |tk.items|)
        case None => Kept(ItemNotFound)
        case Some(k) => Updated(Touch(RemoveItem(tk, k), now))
      else Kept(Ignored)
  }

  // ---------------------------------------------------------------------
  // Slip listener
  // ---------------------------------------------------------------------

  /** A chat message as the listener sees it; `attachment` is the URL of its first attachment. */
  datatype ChatMessage = ChatMessage(fromBot: bool, inGuild: bool, authorId: UserId, attachment: Option<string>)

  /**
   * The message listener: bots, direct messages, channels without an open
   * ticket, authors other than the customer and messages without an
   * attachment are passed over silently; before the total is locked and a
   * payment method set, the slip is refused with a warning.
   */
  function Message(t: Option<TicketRecord>, m: ChatMessage, now: Timestamp): (o: Outcome)
    ensures t.None? ==> o == Kept(Ignored)
    ensures o.Updated? ==> t.Some? && Evolves(t.value, o.ticket) && o.ticket.updatedAt == now
  {
    if m.fromBot || !m.inGuild then Kept(Ignored)
    else if t.None? || t.value.closed then Kept(Ignored)
    else if m.authorId != t.value.customerId then Kept(Ignored)
    else if m.attachment.None? then Kept(Ignored)
    else if !t.value.locked || !Truthy(t.value.paymentMethod) then Kept(SlipNotReady)
    else Updated(Touch(AcceptSlip(t.value, m.attachment.value), now))
  }
}
