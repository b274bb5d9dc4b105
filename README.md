# Ticket order engine of a storefront support bot

The bot opens a private support channel ("ticket") for each customer.
Inside it, staff build an itemised order and lock the total. The customer
then picks a payment method and posts a payment slip. Staff approve or
reject the slip and finally close the ticket. Everything the bot keeps
lives in one store, `DB.tickets`, which maps a channel id to a ticket
object. Three event handlers change those objects in place:

- the button handler;
- the staff form (modal) handler;
- the message listener that takes slips.

The model has six modules:

- `Basics`: option values, JavaScript truthiness of optional strings, and string prefixes.
- `Pricing`: `calcSubtotal` and `ceilBaht`, with quantities and prices as exact `real`s.
- `Tickets`: the ticket record and the record a new ticket starts from. It also holds the pure read-outs of the receipt: the status badge, the payment-method label, and which customer buttons are enabled.
- `Transitions`: the change each handler branch makes to a record. Each handler is a function from the channel's record, or its absence, to an `Outcome`. An outcome is either the updated record or the reason nothing changed. The guards are exactly those the code tests, in the order it tests them.
- `Store`: the imperative layer.
  - `Ticket` is a class whose fields the handlers assign one at a time.
  - `TicketStore` holds the channel-to-object map and the insertion order of its keys. That order is the one `findOpenTicketByUser` scans.
  - Each handler method is proved to do to the store exactly what the matching `Transitions` function says.
  - Lemmas say when the rule "one open ticket per customer" holds and when it does not.
- `Properties`: what the handlers promise taken together. It covers the staff and no-ticket gates and the guards the code lacks. It shows how the customer buttons mirror the guards. It proves the two order scenarios a shop goes through, paid first time and paid after a rejected slip.

A shop would expect this lifecycle to obey several rules. Items do not
change while the total is locked. A payment method is chosen only after
the lock. A closed ticket is never changed again. AWAITING_PAYMENT,
VERIFYING and PAID each imply a locked total. The handlers in index.js
keep only part of this.

They do keep one rule: AWAITING_PAYMENT and VERIFYING imply a locked total.
A new ticket satisfies it (`Tickets.NewTicket`), and every update the three
handlers make preserves it (`ButtonKeepsPaymentStagesLocked`,
`FormsAndSlipsKeepPaymentStagesLocked`). Lock is the only way into
AWAITING_PAYMENT, a slip is only taken on a locked ticket, and unlock goes
back to CART.

They do not keep the others, and the model follows the code:

- The item forms never test `locked`.
- A `dbx_pay_*` button sets the method on an unlocked ticket.
- The verdict buttons and close have no status precondition, so "mark paid" makes an unlocked ticket PAID.
- Only the slip listener tests `closed`.

`FormsIgnoreLock`, `PaymentChoiceIgnoresLock`, `StaffVerdictsIgnoreStatus`,
`PaidWithoutLock`, `CloseIgnoresStatus` and `CloseDoesNotStopStaff` state
these gaps as facts about the code.

## Model

| member | source | states |
|---|---|---|
| Pricing.CalcSubtotal | index.js:144-146 | the subtotal is the sum of qty times unit price over the lines, and 0 for a missing or empty list |
| Pricing.ReduceIsSum | index.js:145 | the left-to-right reduce, from any start value, equals that value plus the sum of the line amounts |
| Pricing.SumLinesConcat | index.js:144-146 | the subtotal of two lists joined is the sum of their subtotals |
| Pricing.SumLinesAppend | index.js:144-146 | appending a line raises the subtotal by exactly that line's amount |
| Pricing.SumLinesReplace | index.js:144-146 | replacing one line changes the subtotal by the difference of the old and new line amounts |
| Pricing.SumLinesRemove | index.js:144-146 | removing one line lowers the subtotal by exactly that line's amount |
| Pricing.SubtotalNonNegative | index.js:144-146 | lines that passed the form's qty/price check never give a negative subtotal |
| Pricing.CeilBaht | index.js:148-152 | total is a whole number with subtotal <= total < subtotal + 1; rounding = total - subtotal lies in [0, 1) and is 0 exactly when the subtotal is whole |
| Pricing.CeilBahtIsLeast | index.js:149 | no smaller whole number covers the subtotal: total is its ceiling |
| Tickets.CustomerRow | index.js:299-307 | "call staff" and "check" are always enabled; "pay" is enabled exactly when locked; "send slip" is enabled exactly when the total is locked and the payment method is truthy |
| Tickets.NewTicket | index.js:387-409 | a new ticket is open for its customer and NEW, with no lines (subtotal 0), no staff, no method or slip, the receipt id set, and "pay" and "send slip" disabled; it satisfies the rule that AWAITING_PAYMENT and VERIFYING imply a lock |
| Tickets.StatusBadge | index.js:161-172 | the seven cases of the switch, one emoji badge per status (a plain function with no contract of its own; distinctness is StatusBadgeInjective) |
| Tickets.StatusBadgeInjective | index.js:161-172 | `StatusBadge` shows distinct badges for distinct statuses, so the receipt always tells them apart |
| Tickets.PaymentLabel | index.js:154-159 | the label reads "not chosen" exactly when the method is not one of PROMPTPAY, BANK or TRUEWALLET |
| Transitions.AppendItem | index.js:792-794 | the new line goes last with earlier lines untouched; the status is CART; staff is assigned only if unset; the subtotal grows by the line amount; nothing else changes |
| Transitions.ReplaceQtyPrice | index.js:810-812 | only line k changes, keeping its name and taking the new qty and price; the status is CART; the subtotal changes by the line difference |
| Transitions.Splice | index.js:822 | one line is dropped, lines before it stay, lines after it shift down by one, and the multiset of lines loses exactly that line |
| Transitions.RemoveItem | index.js:822-823 | line k is removed and the rest keep their order; the status is CART while lines remain, else NEW; the subtotal drops by the line amount |
| Transitions.Lock | index.js:651-653 | locked, AWAITING_PAYMENT, staff assigned only if unset, items and method unchanged, "pay" enabled |
| Transitions.Unlock | index.js:668-669 | unlocked, CART, items and method unchanged, "pay" and "send slip" disabled |
| Transitions.ChoosePayment | index.js:545-546 | the method becomes the id's suffix and nothing else changes; "send slip" becomes enabled exactly when the ticket is locked and the suffix is not empty |
| Transitions.AcceptSlip | index.js:869-870 | the new slip URL replaces any earlier one and the status is VERIFYING; nothing else changes |
| Transitions.MarkPaid | index.js:693-694 | the status is PAID and nothing else changes |
| Transitions.Reject | index.js:707-724 | the status is REJECTED; the slip and everything else stay |
| Transitions.Close | index.js:739-741 | CLOSED and closed, so the ticket is no longer open for any customer |
| Transitions.Touch | index.js:342 | only the last-change time moves, to now |
| Transitions.StaffAction | index.js:650-761 | `dbx_st_lock` applies Lock, `dbx_st_unlock` Unlock, `dbx_verify_ok` and `dbx_st_paid` MarkPaid, `dbx_verify_bad_note` and `dbx_verify_bad` Reject, `dbx_st_close` Close; exactly these seven ids change the ticket, and each change keeps the ticket's identity, keeps a closed ticket closed and keeps checked lines checked |
| Transitions.CustomerButton | index.js:489-601 | only a `dbx_pay_*` id outside the four customer buttons changes the ticket, and the change is exactly ChoosePayment with the text after the prefix, stamped now; "pay" is refused exactly when the total is not locked |
| Transitions.StaffButton | index.js:603-761 | a `dbx_st_*` or `dbx_verify_*` id from a non-staff member is refused; the ticket changes exactly when the id is one of the staff actions and the gate passed, and then becomes exactly that action's result stamped now |
| Transitions.Button | index.js:479-761 | for any id but `dbx_open_ticket` (answered before the lookup, by CreateTicketChannel): no ticket means no change; every update keeps identity and closedness and is stamped now |
| Transitions.ItemIndex | index.js:801-805 | a line number is accepted exactly when it is a whole number from 1 to the line count, and it then names that line |
| Transitions.Modal | index.js:780-827 | a non-staff member changes nothing, then a missing ticket changes nothing; every update keeps identity and is stamped now |
| Transitions.Message | index.js:846-871 | no ticket means no change; every update keeps identity and is stamped now |
| Properties.NotPaymentChoice | index.js:544 | an id whose fifth character is not 'p' does not take the payment-method branch |
| Properties.NonStaffChangesNothing | index.js:604-606 | without the staff role, a `dbx_st_*` or `dbx_verify_*` button (never the open-ticket id) and every form submission are refused with no change |
| Properties.NoTicketChangesNothing | index.js:479-487 | with no ticket record for the channel, no handler changes anything, apart from the open-ticket button that CreateTicketChannel answers before the lookup |
| Properties.AddFormEffect | index.js:785-798 | the add form refuses exactly when qty or price fails the check; otherwise it appends exactly the entered line, sets CART and raises the subtotal by qty times price |
| Properties.UnknownLineChangesNothing | index.js:805 | a line number that names no line leaves the ticket unchanged, for edit and delete alike |
| Properties.EditFormTargetsLine | index.js:800-816 | once line number k+1 names line k, the form is refused with no change exactly when qty or price fails the check; otherwise the result is exactly the stamped ReplaceQtyPrice: line k takes the new qty and price and keeps its name, the other lines stay, and the status is CART |
| Properties.DeleteFormTargetsLine | index.js:818-827 | line number k+1 removes line k only, keeps the order of the rest, sets NEW or CART by what remains, and lowers the subtotal by that line |
| Properties.FormsIgnoreLock | index.js:785-798 | on a locked ticket, the add form still appends a line; the ticket stays locked but shows CART |
| Properties.PaymentChoiceSetsMethod | index.js:544-550 | on any ticket, locked or not, and for any presser, `dbx_pay_X` records X as the method, stamps the time and changes nothing else |
| Properties.PaymentChoiceIgnoresLock | index.js:544-550 | on an unlocked ticket, "pay" is refused, but a `dbx_pay_*` button still sets any suffix as the method |
| Properties.LockButtonsApply | index.js:650-672 | on any ticket, lock sets the flag, AWAITING_PAYMENT and the assignee if none; unlock clears the flag and returns to CART; both stamp the time |
| Properties.ButtonKeepsPaymentStagesLocked | index.js:650-672 | no button update breaks the rule that AWAITING_PAYMENT and VERIFYING imply a locked total |
| Properties.FormsAndSlipsKeepPaymentStagesLocked | index.js:780-871 | no form update and no accepted slip breaks that rule |
| Properties.PaidWithoutLock | index.js:693-696 | "mark paid" on an unlocked ticket makes it PAID and leaves it unlocked, so PAID does not imply a lock |
| Properties.StaffVerdictsIgnoreStatus | index.js:693-737 | from any record, verify-ok and mark-paid give exactly the record with PAID, and both rejections exactly the record with REJECTED, stamped now |
| Properties.CloseIgnoresStatus | index.js:739-761 | from any record, close gives exactly the record with CLOSED and closed set, stamped now |
| Properties.CloseDoesNotStopStaff | index.js:650-655 | a lock on a closed ticket still applies: it stays closed but reads AWAITING_PAYMENT |
| Properties.SlipSubmission | index.js:846-871 | a slip is taken exactly when it comes from the customer, with an attachment, in an open ticket that is locked and has a method; otherwise it is refused with a warning exactly when only the lock or method is missing; a taken slip changes only the slip URL, the status (VERIFYING) and the time |
| Properties.PayButtonMirrorsGuard | index.js:303 | "pay" is enabled exactly when pressing it is not refused for want of a lock |
| Properties.SlipButtonMirrorsGuard | index.js:304 | for the customer's own slip in an open ticket, "send slip" is enabled exactly when the listener takes the slip |
| Properties.PaidOrderScenario | index.js:785-871 | Gem Pack 3 x 33.33, then lock: subtotal 99.99, total 100, rounding 0.01; then BANK, a slip and verify-ok end in PAID |
| Properties.RejectedThenPaidScenario | index.js:707-871 | from a locked open ticket with a method: a slip gives VERIFYING, a bad-note rejection keeps that slip, a second slip replaces it (VERIFYING again), and verify-ok ends in PAID with items and method unchanged |
| Store.FirstOpenSound | index.js:122-127 | the scan returns only a key of the store's key order whose ticket is open for the user |
| Store.FirstOpenEarliest | index.js:122-127 | when the key at position i holds an open ticket of the user, the scan finds one at position i or earlier |
| Store.FirstOpenSpec | index.js:122-127 | the scan returns only a key whose ticket is open for the user, finds one whenever one exists, and finds the earliest in key order |
| Store.FilingKeepsKeys | index.js:118-121 | filing an object not held under another key keeps the key order listing every key once, a new key going last, and keeps one key per object |
| Store.EvolvingKeepsOneOpen | index.js:349-355 | an update that keeps the owner and keeps closed tickets closed preserves "at most one open ticket per customer" |
| Store.CreationKeepsOneOpen | index.js:349-409 | filing a new ticket for a customer the scan finds no open ticket for preserves that rule |
| Store.DeletedChannelAllowsSecondOpenTicket | index.js:351-355 | when the open ticket's channel is no longer in the guild, a second open ticket for the same customer is created and the rule breaks |
| Store.Ticket.constructor | index.js:387-400 | the object's fields are the given record |
| Store.Ticket.PushItem | index.js:792-794 | the object afterwards is AppendItem of the object before |
| Store.Ticket.SetQtyPrice | index.js:810-812 | the object afterwards is ReplaceQtyPrice of the object before |
| Store.Ticket.SpliceItem | index.js:822-823 | the object afterwards is RemoveItem of the object before |
| Store.Ticket.LockTotal | index.js:651-653 | the object afterwards is Lock of the object before |
| Store.Ticket.UnlockTotal | index.js:668-669 | the object afterwards is Unlock of the object before |
| Store.Ticket.SetPaymentMethod | index.js:545-547 | the object afterwards is ChoosePayment of the object before, stamped now |
| Store.Ticket.SetSlip | index.js:869-870 | the object afterwards is AcceptSlip of the object before |
| Store.Ticket.SetPaid | index.js:694 | the object afterwards is MarkPaid of the object before |
| Store.Ticket.SetRejected | index.js:708 | the object afterwards is Reject of the object before |
| Store.Ticket.SetClosed | index.js:740-741 | the object afterwards is Close of the object before |
| Store.Ticket.StaffAction | index.js:650-761 | the object takes the staff action the id names, or stays as it was when no action has that id |
| Store.Ticket.Stamp | index.js:342 | the object afterwards is Touch of the object before |
| Store.TicketStore.constructor | index.js:81 | the store starts empty, with no keys |
| Store.TicketStore.GetTicket | index.js:115-117 | returns the channel's object exactly when the channel has one, else null |
| Store.TicketStore.SetTicket | index.js:118-121 | files the object under the channel; a new key goes last in key order; the records change only at that channel |
| Store.TicketStore.FindOpenTicketByUser | index.js:122-127 | returns the first key in insertion order whose ticket is open for the user, with its object; returns none, and null, only when no ticket is open for the user |
| Store.TicketStore.UpdateReceipt | index.js:339-344 | the object is stamped now and filed again; the keys stay the same |
| Store.TicketStore.Commit | index.js:654-655 | setTicket then updateReceipt: the object is stamped now and the keys stay the same |
| Store.TicketStore.CreateTicketChannel | index.js:349-409 | returns the first open ticket's channel when that channel still exists, with the store untouched; otherwise files a fresh NewTicket under the new channel, which goes last in the key order when it is a new key, and changes no other key, object or record |
| Store.TicketStore.OnButton | index.js:479-761 | for any id but `dbx_open_ticket`, the outcome is Button of the channel's record before, and the store changes exactly by that outcome |
| Store.TicketStore.PressCustomerButton | index.js:489-601 | the outcome is CustomerButton of the ticket before, and the store changes exactly by that outcome |
| Store.TicketStore.PressStaffButton | index.js:603-761 | the outcome is StaffButton of the ticket before, and the store changes exactly by that outcome |
| Store.TicketStore.OnModalSubmit | index.js:780-827 | the outcome is Modal of the channel's record before, and the store changes exactly by that outcome |
| Store.TicketStore.SubmitItemForm | index.js:785-827 | the outcome is Modal, for a staff member, of the ticket before, and the store changes exactly by that outcome |
| Store.TicketStore.OnMessage | index.js:846-871 | the outcome is Message of the channel's record before, and the store changes exactly by that outcome |

## Left out

- The chat platform's SDK: creating channels and their permissions, renaming a closed channel, embeds, forms and buttons as rendered, replies, log-channel posts, and pinning. These are I/O. The handlers keep only their effect on the ticket store.
- `updateReceipt` fetching and editing the receipt message. It is I/O. Only its timestamp and its `setTicket` are modelled. A failed fetch throws before that point in the code. Then the object already carries the handler's changes but not the new time. The model does not capture this.
- The slash commands `/dbx_panel` and `/dbx_staff`. They only reply and change no ticket.
- The HTTP health server, environment loading and command registration. These are bootstrapping.
- `loadDB`, the state directory, and the debounced `saveDBSoon`. These are file I/O and a timer. `setTicket` is a plain map update here.
- `genTicketCode` (random) and `Date.now()`. They enter as the `code` and `now` parameters. The two `Date.now()` calls that fill a new ticket's timestamps are taken as one instant.
- `guild.channels.cache.get` enters as the `live` set of channels that still exist. `guild.channels.create` enters as the fresh channel id `newChannel`.
- JavaScript numbers. Quantities and prices are exact `real`s. `Number(text)` enters as an optional real, where none stands for NaN or an infinity. IEEE rounding of the sums is not modelled.
- Pricing.CeilBaht: the rounding is exact, `total - subtotal`. The code rounds it to two decimals with `toFixed(2)`, which is display formatting.
- `fmt2` and the other display formatting, and the text of the embeds.
- `statusBadge` for a status outside the seven known ones. The `Status` datatype admits only those seven.
- Interleaving of the asynchronous handlers. Each handler is modelled as one atomic step. The check-then-create race in `createTicketChannel` is therefore not modelled.
- A ledger of paid orders. No such ledger exists in index.js.
