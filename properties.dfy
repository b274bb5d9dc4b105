/**
 * Properties of the three handlers taken together: who can change a
 * ticket, which guards the code has and which it lacks, how the customer
 * buttons mirror the guards, and proofs of the two order scenarios a shop goes
 * through (paid first time, and paid after a rejected slip).
 */
module Properties {
  import opened Basics
  import opened Pricing
  import opened Tickets
  import opened Transitions

  // ---------------------------------------------------------------------
  // Gates
  // ---------------------------------------------------------------------

  /** An id whose fifth character is not 'p' is not caught by the `dbx_pay_` branch. */
  lemma NotPaymentChoice(id: string)
    requires |id| > 4 && id[4] != 'p'
    ensures !StartsWith(id, PayPrefix)
  {
    if |id| >= |PayPrefix| {
      assert id[..|PayPrefix|][4] != PayPrefix[4];
    }
  }

  /**
   * A member without the staff role changes nothing through a `dbx_st_*`
   * or `dbx_verify_*` button, nor through any staff form.
   */
  lemma NonStaffChangesNothing(t: TicketRecord, id: string, formId: string, actor: UserId, f: FormFields, now: Timestamp)
    ensures StaffOnly(id) ==> id != OpenTicketButton && Button(Some(t), id, false, actor, now) == Kept(NotStaff)
    ensures Modal(Some(t), formId, false, actor, f, now) == Kept(NotStaff)
  {
    if StaffOnly(id) {
      // Index 4 is 's' or 'v' here, but 'c' in the customer ids, 'p' in the payment prefix and 'o' in the open-ticket id.
      assert id[4] == 's' || id[4] == 'v' by {
        if StartsWith(id, StaffPrefix) { assert id[4] == id[..7][4]; } else { assert id[4] == id[..11][4]; }
      }
      NotPaymentChoice(id);
    }
  }

  /**
   * Without a ticket record for the channel, none of the three handlers
   * changes anything (the "open ticket" button, answered before the lookup,
   * is the one that creates a record).
   */
  lemma NoTicketChangesNothing(id: string, formId: string, staff: bool, actor: UserId, f: FormFields, m: ChatMessage, now: Timestamp)
    requires id != OpenTicketButton
    ensures Button(None, id, staff, actor, now).Kept?
    ensures Modal(None, formId, staff, actor, f, now).Kept?
    ensures Message(None, m, now).Kept?
  {
  }

  // ---------------------------------------------------------------------
  // Item forms
  // ---------------------------------------------------------------------

  /**
   * The add form either refuses (qty or price out of range, ticket as it
   * was) or appends exactly the entered line after the existing ones.
   */
  lemma AddFormEffect(t: TicketRecord, actor: UserId, f: FormFields, now: Timestamp)
    ensures var o := Modal(Some(t), AddForm, true, actor, f, now);
      && (!ValidQtyPrice(f.qty, f.unit) <==> o == Kept(InvalidQtyOrPrice))
      && (o.Updated? ==>
            && o.ticket.items == t.items + [Item(f.name, f.qty.value, f.unit.value)]
            && o.ticket.status == Cart
            && CalcSubtotal(Some(o.ticket.items)) == CalcSubtotal(Some(t.items)) + f.qty.value * f.unit.value)
  {
    if ValidQtyPrice(f.qty, f.unit) {
      var u := AppendItem(t, Item(f.name, f.qty.value, f.unit.value), actor);
      assert u.items == u.items[..|t.items|] + [u.items[|t.items|]];
    }
  }

  /** A line number that names no existing line leaves the ticket as it was, for edit and delete alike. */
  lemma UnknownLineChangesNothing(t: TicketRecord, formId: string, actor: UserId, f: FormFields, now: Timestamp)
    requires formId == EditForm || formId == DeleteForm
    requires forall j: nat :: j < |t.items| ==> f.position != Some(OneBased(j))
    ensures Modal(Some(t), formId, true, actor, f, now) == Kept(ItemNotFound)
  {
  }

  /**
   * Line number `k + 1` in the edit form names line `k`; the form is then
   * refused exactly when qty or price fails the check, and otherwise changes
   * qty and price of line `k` only, keeping its name, and sets CART.
   */
  lemma EditFormTargetsLine(t: TicketRecord, k: nat, actor: UserId, f: FormFields, now: Timestamp)
    requires k < |t.items| && f.position == Some(OneBased(k))
    ensures var o := Modal(Some(t), EditForm, true, actor, f, now);
      && (o == Kept(InvalidQtyOrPrice) <==> !ValidQtyPrice(f.qty, f.unit))
      && (ValidQtyPrice(f.qty, f.unit) ==> o == Updated(Touch(ReplaceQtyPrice(t, k, f.qty.value, f.unit.value), now)))
      && (o.Updated? ==>
            && |o.ticket.items| == |t.items|
            && o.ticket.items[k] == Item(t.items[k].name, f.qty.value, f.unit.value)
            && (forall j :: 0 <= j < |t.items| && j != k ==> o.ticket.items[j] == t.items[j])
            && o.ticket.status == Cart)
  {
  }

  /** Line number `k + 1` in the delete form removes line `k` and nothing else; the status says whether lines remain. */
  lemma DeleteFormTargetsLine(t: TicketRecord, k: nat, actor: UserId, f: FormFields, now: Timestamp)
    requires k < |t.items| && f.position == Some(OneBased(k))
    ensures var o := Modal(Some(t), DeleteForm, true, actor, f, now);
      && o.Updated?
      && o.ticket.items == t.items[..k] + t.items[k + 1..]
      && o.ticket.status == (if |t.items| == 1 then New else Cart)
      && CalcSubtotal(Some(o.ticket.items)) == CalcSubtotal(Some(t.items)) - LineTotal(t.items[k])
  {
    var u := RemoveItem(t, k);
    assert u.items == t.items[..k] + t.items[k + 1..];
  }

  // ---------------------------------------------------------------------
  // Guards the handlers do not have
  // ---------------------------------------------------------------------

  /** The item forms do not look at `locked`: staff can add a line to a locked total, which keeps `locked` and shows CART. */
  lemma FormsIgnoreLock(t: TicketRecord, actor: UserId, f: FormFields, now: Timestamp)
    requires t.locked && ValidQtyPrice(f.qty, f.unit)
    ensures var o := Modal(Some(t), AddForm, true, actor, f, now);
      o.Updated? && o.ticket.locked && o.ticket.status == Cart && |o.ticket.items| == |t.items| + 1
  {
  }

  /**
   * A `dbx_pay_*` button, pressed by anyone on any ticket, records the text
   * after the prefix as the payment method and stamps the time; nothing
   * else changes.
   */
  lemma PaymentChoiceSetsMethod(t: TicketRecord, choice: string, staff: bool, actor: UserId, now: Timestamp)
    ensures PayPrefix + choice != OpenTicketButton
    ensures Button(Some(t), PayPrefix + choice, staff, actor, now) == Updated(Touch(ChoosePayment(t, choice), now))
  {
    var id := PayPrefix + choice;
    assert id[..|PayPrefix|] == PayPrefix && id[|PayPrefix|..] == choice;
    assert id[4] == 'p';
  }

  /**
   * A `dbx_pay_*` button sets the payment method on an unlocked ticket, for
   * any member and any suffix; only the "pay" button that opens the menu
   * checks `locked`.
   */
  lemma PaymentChoiceIgnoresLock(t: TicketRecord, choice: string, staff: bool, actor: UserId, now: Timestamp)
    requires !t.locked
    ensures Button(Some(t), PayButton, staff, actor, now) == Kept(NotLocked)
    ensures PayPrefix + choice != OpenTicketButton
    ensures var o := Button(Some(t), PayPrefix + choice, staff, actor, now);
      o.Updated? && o.ticket.paymentMethod == Some(choice) && !o.ticket.locked
  {
    PaymentChoiceSetsMethod(t, choice, staff, actor, now);
  }

  /**
   * Lock and unlock apply to any record, for a member with the staff role:
   * lock sets the flag, AWAITING_PAYMENT and the assignee if none; unlock
   * clears the flag and goes back to CART.
   */
  lemma LockButtonsApply(t: TicketRecord, actor: UserId, now: Timestamp)
    ensures Button(Some(t), LockButton, true, actor, now) == Updated(Touch(Lock(t, actor), now))
    ensures Button(Some(t), UnlockButton, true, actor, now) == Updated(Touch(Unlock(t), now))
  {
    NotPaymentChoice(LockButton);
    NotPaymentChoice(UnlockButton);
  }

  /**
   * Verify-ok, mark-paid and both rejections have no status precondition:
   * from any record, even an unlocked or closed one, they set their status
   * and change nothing else but the time.
   */
  lemma StaffVerdictsIgnoreStatus(t: TicketRecord, actor: UserId, now: Timestamp)
    ensures Button(Some(t), VerifyOkButton, true, actor, now) == Updated(t.(status := Paid, updatedAt := now))
    ensures Button(Some(t), PaidButton, true, actor, now) == Updated(t.(status := Paid, updatedAt := now))
    ensures Button(Some(t), BadNoteButton, true, actor, now) == Updated(t.(status := Rejected, updatedAt := now))
    ensures Button(Some(t), BadSlipButton, true, actor, now) == Updated(t.(status := Rejected, updatedAt := now))
  {
    NotPaymentChoice(VerifyOkButton);
    NotPaymentChoice(PaidButton);
    NotPaymentChoice(BadNoteButton);
    NotPaymentChoice(BadSlipButton);
  }

  /** Close has no status precondition either: any record, open or already closed, ends CLOSED. */
  lemma CloseIgnoresStatus(t: TicketRecord, actor: UserId, now: Timestamp)
    ensures Button(Some(t), CloseButton, true, actor, now) == Updated(t.(status := Closed, closed := true, updatedAt := now))
  {
    NotPaymentChoice(CloseButton);
  }

  /**
   * Closing does not stop staff: a lock on a closed ticket is applied, so
   * the record is closed while its status reads AWAITING_PAYMENT.
   */
  lemma CloseDoesNotStopStaff(t: TicketRecord, actor: UserId, now: Timestamp)
    requires t.closed
    ensures var o := Button(Some(t), LockButton, true, actor, now);
      o.Updated? && o.ticket.closed && o.ticket.status == AwaitingPayment
  {
    NotPaymentChoice(LockButton);
  }

  /**
   * One lifecycle rule the code does keep: no button press leads from a
   * record where AWAITING_PAYMENT and VERIFYING imply a locked total to one
   * where they do not.  Lock is the only way into AWAITING_PAYMENT and
   * unlock goes back to CART.
   */
  lemma ButtonKeepsPaymentStagesLocked(t: TicketRecord, id: string, staff: bool, actor: UserId, now: Timestamp)
    requires PaymentStagesLocked(t) && id != OpenTicketButton
    ensures var o := Button(Some(t), id, staff, actor, now); o.Updated? ==> PaymentStagesLocked(o.ticket)
  {
  }

  /** The forms (which always leave CART or NEW) and the slip listener (which takes slips only on a locked ticket) keep the same rule. */
  lemma FormsAndSlipsKeepPaymentStagesLocked(t: TicketRecord, formId: string, staff: bool, actor: UserId,
                                             f: FormFields, m: ChatMessage, now: Timestamp)
    requires PaymentStagesLocked(t)
    ensures var o := Modal(Some(t), formId, staff, actor, f, now); o.Updated? ==> PaymentStagesLocked(o.ticket)
    ensures var o := Message(Some(t), m, now); o.Updated? ==> PaymentStagesLocked(o.ticket)
  {
  }

  /**
   * PAID does not imply a locked total: "mark paid" on an unlocked ticket
   * is applied and leaves it unlocked.
   */
  lemma PaidWithoutLock(t: TicketRecord, actor: UserId, now: Timestamp)
    requires !t.locked
    ensures var o := Button(Some(t), PaidButton, true, actor, now);
      o.Updated? && o.ticket.status == Paid && !o.ticket.locked
  {
    NotPaymentChoice(PaidButton);
  }

  // ---------------------------------------------------------------------
  // Slips
  // ---------------------------------------------------------------------

  /** What the listener needs before it looks at lock and method: a member's message in the open ticket's channel, from its customer, with an attachment. */
  predicate SlipCandidate(t: TicketRecord, m: ChatMessage) {
    !m.fromBot && m.inGuild && !t.closed && m.authorId == t.customerId && m.attachment.Some?
  }

  /**
   * A slip is taken exactly when it comes from the ticket's customer, with
   * an attachment, in an open ticket whose total is locked and whose
   * payment method is set; it then replaces the stored slip and moves the
   * ticket to VERIFYING, changing nothing else but `updatedAt`.
   */
  lemma SlipSubmission(t: TicketRecord, m: ChatMessage, now: Timestamp)
    ensures var o := Message(Some(t), m, now);
      && (o.Updated? <==> SlipCandidate(t, m) && t.locked && Truthy(t.paymentMethod))
      && (o == Kept(SlipNotReady) <==> SlipCandidate(t, m) && !(t.locked && Truthy(t.paymentMethod)))
      && (o.Updated? ==> o.ticket == t.(slipUrl := m.attachment, status := Verifying, updatedAt := now))
  {
  }

  /** The customer's buttons mirror the guards: "pay" is enabled exactly when pressing it is not refused for want of a lock. */
  lemma PayButtonMirrorsGuard(t: TicketRecord, staff: bool, actor: UserId, now: Timestamp)
    ensures CustomerRow(t).pay <==> Button(Some(t), PayButton, staff, actor, now) != Kept(NotLocked)
  {
  }

  /** "Send slip" is enabled exactly when the listener would take a slip the customer sends now. */
  lemma SlipButtonMirrorsGuard(t: TicketRecord, m: ChatMessage, now: Timestamp)
    requires SlipCandidate(t, m)
    ensures CustomerRow(t).slip <==> Message(Some(t), m, now).Updated?
  {
  }

  // ---------------------------------------------------------------------
  // Order scenarios
  // ---------------------------------------------------------------------

  /** The record after a sequence of handler outcomes, each applied to the record the previous one left. */
  function Then(o: Outcome, t: TicketRecord): TicketRecord {
    if o.Updated? then o.ticket else t
  }

  /**
   * A new ticket; staff add 3 × 33.33 and lock; the customer picks BANK and
   * sends a slip; staff verify it.  The total is 100 baht (99.99 rounded
   * up by 0.01), and the ticket ends PAID.
   */
  lemma PaidOrderScenario(customer: UserId, staffMember: UserId, code: string, receipt: MessageId, slip: string)
    ensures
      var t0 := NewTicket(code, customer, receipt, 0);
      var t1 := Then(Modal(Some(t0), AddForm, true, staffMember, FormFields("Gem Pack", Some(3.0), Some(33.33), None), 1), t0);
      var t2 := Then(Button(Some(t1), LockButton, true, staffMember, 2), t1);
      var t3 := Then(Button(Some(t2), PayPrefix + Bank, false, customer, 3), t2);
      var t4 := Then(Message(Some(t3), ChatMessage(false, true, customer, Some(slip)), 4), t3);
      var t5 := Then(Button(Some(t4), VerifyOkButton, true, staffMember, 5), t4);
      && CalcSubtotal(Some(t2.items)) == 99.99
      && CeilBaht(CalcSubtotal(Some(t2.items))) == Rounded(100, 0.01)
      && t4.status == Verifying && t4.slipUrl == Some(slip)
      && t5.status == Paid && t5.items == t2.items && t5.staffId == Some(staffMember)
  {
    var t0 := NewTicket(code, customer, receipt, 0);
    var it := Item("Gem Pack", 3.0, 33.33);
    var t1 := Touch(AppendItem(t0, it, staffMember), 1);
    assert t1.items == [it];
    var t2 := Touch(Lock(t1, staffMember), 2);
    NotPaymentChoice(LockButton);
    var id := PayPrefix + Bank;
    assert id[..|PayPrefix|] == PayPrefix && id[|PayPrefix|..] == Bank && id[4] == 'p';
    var t3 := Touch(ChoosePayment(t2, Bank), 3);
    var t4 := Touch(AcceptSlip(t3, slip), 4);
    NotPaymentChoice(VerifyOkButton);
    assert SumLines(t2.items) == LineTotal(it) + SumLines([]);
  }

  /**
   * The same order where staff first reject the slip for a missing note:
   * the ticket goes REJECTED, the customer's second slip brings it back to
   * VERIFYING, and verifying that one makes it PAID.
   */
  lemma RejectedThenPaidScenario(t: TicketRecord, staffMember: UserId, slip1: string, slip2: string)
    requires t.locked && Truthy(t.paymentMethod) && !t.closed
    ensures
      var m1 := ChatMessage(false, true, t.customerId, Some(slip1));
      var m2 := ChatMessage(false, true, t.customerId, Some(slip2));
      var t1 := Then(Message(Some(t), m1, 1), t);
      var t2 := Then(Button(Some(t1), BadNoteButton, true, staffMember, 2), t1);
      var t3 := Then(Message(Some(t2), m2, 3), t2);
      var t4 := Then(Button(Some(t3), VerifyOkButton, true, staffMember, 4), t3);
      && t1.status == Verifying
      && t2.status == Rejected && t2.slipUrl == Some(slip1)
      && t3.status == Verifying && t3.slipUrl == Some(slip2)
      && t4.status == Paid && t4.items == t.items && t4.paymentMethod == t.paymentMethod
  {
    NotPaymentChoice(BadNoteButton);
    NotPaymentChoice(VerifyOkButton);
  }
}
