/**
 * The global ticket store `DB.tickets` and the handlers that work on it.
 * Each ticket is an object the handlers change field by field in place;
 * the store maps a channel id to that object, so a change made to the
 * object is visible through the store before `setTicket` is called again.
 * The store also keeps its keys in insertion order, the order in which
 * `Object.entries` yields them and so the order `findOpenTicketByUser`
 * scans.  Every handler is proved to have on the store exactly the effect
 * the matching function of `Transitions` describes.
 */
module Store {
  import opened Basics
  import opened Pricing
  import opened Tickets
  import opened Transitions

  /** A ticket object of `DB.tickets`. */
  class Ticket {
    var ticketCode: string
    var customerId: UserId
    var staffId: Option<UserId>
    var status: Status
    var locked: bool
    var items: seq<Item>
    var paymentMethod: Option<string>
    var slipUrl: Option<string>
    var receiptMessageId: Option<MessageId>
    var closed: bool
    var createdAt: Timestamp
    var updatedAt: Timestamp

    /** The object's fields as a value. */
    function Record(): TicketRecord
      reads this
    {
      TicketRecord(ticketCode, customerId, staffId, status, locked, items,
                   paymentMethod, slipUrl, receiptMessageId, closed, createdAt, updatedAt)
    }

    /** The object literal `createTicketChannel` builds. */
    constructor (r: TicketRecord)
      ensures Record() == r
    {
      ticketCode, customerId, staffId, status := r.ticketCode, r.customerId, r.staffId, r.status;
      locked, items, paymentMethod, slipUrl := r.locked, r.items, r.paymentMethod, r.slipUrl;
      receiptMessageId, closed, createdAt, updatedAt := r.receiptMessageId, r.closed, r.createdAt, r.updatedAt;
    }

    method PushItem(it: Item, actor: UserId)
      modifies this
      ensures Record() == AppendItem(old(Record()), it, actor)
    {
      items := items + [it];
      staffId := if Truthy(staffId) then staffId else Some(actor);
      status := Cart;
    }

    method SetQtyPrice(k: nat, qty: real, unit: real)
      requires k < |items|
      modifies this
      ensures Record() == ReplaceQtyPrice(old(Record()), k, qty, unit)
    {
      items := items[k := items[k].(qty := qty)];
      items := items[k := items[k].(unitPrice := unit)];
      status := Cart;
    }

    method SpliceItem(k: nat)
      requires k < |items|
      modifies this
      ensures Record() == RemoveItem(old(Record()), k)
    {
      items := items[..k] + items[k + 1..];
      status := if |items| > 0 then Cart else New;
    }

    method LockTotal(actor: UserId)
      modifies this
      ensures Record() == Lock(old(Record()), actor)
    {
      locked := true;
      status := AwaitingPayment;
      staffId := if Truthy(staffId) then staffId else Some(actor);
    }

    method UnlockTotal()
      modifies this
      ensures Record() == Unlock(old(Record()))
    {
      locked := false;
      status := Cart;
    }

    /** The `dbx_pay_*` branch sets the method and stamps the object itself. */
    method SetPaymentMethod(choice: string, now: Timestamp)
      modifies this
      ensures Record() == Touch(ChoosePayment(old(Record()), choice), now)
    {
      paymentMethod := Some(choice);
      updatedAt := now;
    }

    method SetSlip(url: string)
      modifies this
      ensures Record() == AcceptSlip(old(Record()), url)
    {
      slipUrl := Some(url);
      status := Verifying;
    }

    method SetPaid()
      modifies this
      ensures Record() == MarkPaid(old(Record()))
    {
      status := Paid;
    }

    method SetRejected()
      modifies this
      ensures Record() == Reject(old(Record()))
    {
      status := Rejected;
    }

    method SetClosed()
      modifies this
      ensures Record() == Close(old(Record()))
    {
      status := Closed;
      closed := true;
    }

    /** The staff control buttons' changes; `done` is false for any other id. */
    method StaffAction(id: string, actor: UserId) returns (done: bool)
      modifies this
      ensures done <==> Transitions.StaffAction(old(Record()), id, actor).Some?
      ensures Record() == if done then Transitions.StaffAction(old(Record()), id, actor).value else old(Record())
    {
      done := true;
      if id == LockButton {
        LockTotal(actor);
      } else if id == UnlockButton {
        UnlockTotal();
      } else if id == VerifyOkButton || id == PaidButton {
        SetPaid();
      } else if id == BadNoteButton || id == BadSlipButton {
        SetRejected();
      } else if id == CloseButton {
        SetClosed();
      } else {
        done := false;
      }
    }

    method Stamp(now: Timestamp)
      modifies this
      ensures Record() == Touch(old(Record()), now)
    {
      updatedAt := now;
    }
  }

  /** `order` lists the keys of `tickets`, each once. */
  ghost predicate KeysInOrder(tickets: map<ChannelId, Ticket>, order: seq<ChannelId>) {
    && (forall ch :: ch in tickets <==> ch in order)
    && (forall i, j :: 0 <= i < j < |order| ==> order[i] != order[j])
  }

  /** No ticket object is filed under two channels. */
  ghost predicate OneKeyPerObject(tickets: map<ChannelId, Ticket>) {
    forall a, b :: a in tickets && b in tickets && a != b ==> tickets[a] != tickets[b]
  }

  /** Filing an object not held under another key keeps both rules, a new key going last. */
  lemma FilingKeepsKeys(tickets: map<ChannelId, Ticket>, order: seq<ChannelId>, ch: ChannelId, t: Ticket)
    requires KeysInOrder(tickets, order) && OneKeyPerObject(tickets)
    requires forall k :: k in tickets && tickets[k] == t ==> k == ch
    ensures KeysInOrder(tickets[ch := t], if ch in tickets then order else order + [ch])
    ensures OneKeyPerObject(tickets[ch := t])
  {
  }

  /** `getTicket` on a snapshot of the store. */
  function Lookup(snap: map<ChannelId, TicketRecord>, ch: ChannelId): Option<TicketRecord> {
    if ch in snap then Some(snap[ch]) else None
  }

  /** The store after a handler's outcome for channel `ch`. */
  function Apply(snap: map<ChannelId, TicketRecord>, ch: ChannelId, o: Outcome): map<ChannelId, TicketRecord> {
    if o.Updated? then snap[ch := o.ticket] else snap
  }

  /** The first key, in the store's key order, whose record is open for `u`. */
  function FirstOpen(keys: seq<ChannelId>, snap: map<ChannelId, TicketRecord>, u: UserId): Option<ChannelId>
    decreases |keys|
  {
    if keys == [] then None
    else if keys[0] in snap && OpenFor(snap[keys[0]], u) then Some(keys[0])
    else FirstOpen(keys[1..], snap, u)
  }

  /** `FirstOpen` returns only a key of the scan whose record is open for `u`. */
  lemma {:induction false} FirstOpenSound(keys: seq<ChannelId>, snap: map<ChannelId, TicketRecord>, u: UserId)
    ensures var r := FirstOpen(keys, snap, u);
      r.Some? ==> r.value in keys && r.value in snap && OpenFor(snap[r.value], u)
    decreases |keys|
  {
    if keys != [] && !(keys[0] in snap && OpenFor(snap[keys[0]], u)) {
      FirstOpenSound(keys[1..], snap, u);
      var r := FirstOpen(keys, snap, u);
      if r.Some? {
        var j :| 0 <= j < |keys[1..]| && keys[1..][j] == r.value;
        assert keys[j + 1] == r.value;
      }
    }
  }

  /**
   * Whenever the key at position `i` holds an open ticket of `u`,
   * `FirstOpen` finds one, at position `i` or earlier.
   */
  lemma {:induction false} FirstOpenEarliest(keys: seq<ChannelId>, snap: map<ChannelId, TicketRecord>, u: UserId, i: nat)
    requires i < |keys| && keys[i] in snap && OpenFor(snap[keys[i]], u)
    ensures var r := FirstOpen(keys, snap, u);
      r.Some? && r.value in keys[..i + 1]
    decreases i
  {
    if !(keys[0] in snap && OpenFor(snap[keys[0]], u)) {
      assert i > 0;
      assert keys[1..][i - 1] == keys[i];
      FirstOpenEarliest(keys[1..], snap, u, i - 1);
      var r := FirstOpen(keys, snap, u);
      var j :| 0 <= j < i && keys[1..][..i][j] == r.value;
      assert keys[..i + 1][j + 1] == r.value;
    } else {
      assert keys[..i + 1][0] == keys[0];
    }
  }

  /** Both halves for every position: sound, and the earliest open ticket of `u` in key order. */
  lemma FirstOpenSpec(keys: seq<ChannelId>, snap: map<ChannelId, TicketRecord>, u: UserId)
    ensures var r := FirstOpen(keys, snap, u);
      && (r.Some? ==> r.value in keys && r.value in snap && OpenFor(snap[r.value], u))
      && (forall i :: 0 <= i < |keys| && keys[i] in snap && OpenFor(snap[keys[i]], u) ==>
            r.Some? && r.value in keys[..i + 1])
  {
    FirstOpenSound(keys, snap, u);
    forall i | 0 <= i < |keys| && keys[i] in snap && OpenFor(snap[keys[i]], u)
      ensures FirstOpen(keys, snap, u).Some? && FirstOpen(keys, snap, u).value in keys[..i + 1]
    {
      FirstOpenEarliest(keys, snap, u, i);
    }
  }

  /** At most one open ticket per customer: the rule creation time is meant to enforce. */
  predicate OneOpenPerCustomer(snap: map<ChannelId, TicketRecord>) {
    forall a, b :: a in snap && b in snap && a != b && !snap[a].closed && !snap[b].closed ==>
      snap[a].customerId != snap[b].customerId
  }

  /** An update of the kind every handler makes (same owner, closed stays closed) keeps the rule. */
  lemma EvolvingKeepsOneOpen(snap: map<ChannelId, TicketRecord>, ch: ChannelId, u: TicketRecord)
    requires OneOpenPerCustomer(snap) && ch in snap && Evolves(snap[ch], u)
    ensures OneOpenPerCustomer(snap[ch := u])
  {
    var s := snap[ch := u];
    forall a, b | a in s && b in s && a != b && !s[a].closed && !s[b].closed
      ensures s[a].customerId != s[b].customerId
    {
      assert !snap[a].closed && !snap[b].closed;
    }
  }

  /** A new ticket for a customer with no open ticket among the store's keys keeps the rule. */
  lemma CreationKeepsOneOpen(keys: seq<ChannelId>, snap: map<ChannelId, TicketRecord>, ch: ChannelId, t: TicketRecord)
    requires OneOpenPerCustomer(snap) && ch !in snap
    requires forall k :: k in snap ==> k in keys
    requires FirstOpen(keys, snap, t.customerId).None?
    ensures OneOpenPerCustomer(snap[ch := t])
  {
    FirstOpenSpec(keys, snap, t.customerId);
    var s := snap[ch := t];
    forall a, b | a in s && b in s && a != b && !s[a].closed && !s[b].closed
      ensures s[a].customerId != s[b].customerId
    {
      if a == ch || b == ch {
        var other := if a == ch then b else a;
        assert other in snap && !snap[other].closed;
        var i :| 0 <= i < |keys| && keys[i] == other;
        assert !OpenFor(snap[keys[i]], t.customerId);
      }
    }
  }

  /**
   * The reuse check trusts the first open ticket only while its channel
   * still exists: if that channel was deleted, a second open ticket for
   * the same customer is created and the rule no longer holds.
   */
  lemma DeletedChannelAllowsSecondOpenTicket(u: UserId, code: string, receipt: MessageId, now: Timestamp)
    ensures var prior := NewTicket(code, u, receipt, now);
      var snap := map["c1" := prior];
      var live: set<ChannelId> := {};
      && FirstOpen(["c1"], snap, u) == Some("c1") && "c1" !in live
      && OneOpenPerCustomer(snap)
      && !OneOpenPerCustomer(snap["c2" := NewTicket(code, u, receipt, now)])
  {
    var s := map["c1" := NewTicket(code, u, receipt, now)]["c2" := NewTicket(code, u, receipt, now)];
    assert "c1" in s && "c2" in s && "c1" != "c2";
  }

  /** `DB`, the bot's in-memory ticket store. */
  class TicketStore {
    var tickets: map<ChannelId, Ticket>
    /** The keys of `tickets` in insertion order. */
    var order: seq<ChannelId>

    /**
     * The keys in `order` are those of `tickets`, each once, and no ticket
     * object is filed under two channels.
     */
    ghost predicate Valid()
      reads this
    {
      KeysInOrder(tickets, order) && OneKeyPerObject(tickets)
    }

    /** The records of all tickets, by channel. */
    ghost function Snapshot(): map<ChannelId, TicketRecord>
      reads this, tickets.Values
    {
      map ch | ch in tickets :: tickets[ch].Record()
    }

    /** The store as the bot starts it: no tickets. */
    constructor ()
      ensures Valid() && tickets == map[] && order == []
    {
      tickets, order := map[], [];
    }

    /** `getTicket(channelId)`: the channel's ticket object, or null. */
    method GetTicket(ch: ChannelId) returns (t: Ticket?)
      requires Valid()
      ensures t != null <==> ch in Snapshot()
      ensures t != null ==> ch in tickets && t == tickets[ch] && t.Record() == Snapshot()[ch]
    {
      t := if ch in tickets then tickets[ch] else null;
    }

    /**
     * `setTicket(channelId, data)`: files the object under the channel; a
     * new key goes to the end of the key order, an existing one keeps its
     * place.  Every caller passes the channel's own object or a new one.
     */
    method SetTicket(ch: ChannelId, t: Ticket)
      requires Valid()
      requires forall k :: k in tickets && tickets[k] == t ==> k == ch
      modifies this
      ensures Valid()
      ensures tickets == old(tickets)[ch := t]
      ensures order == if ch in old(tickets) then old(order) else old(order) + [ch]
      ensures Snapshot() == old(Snapshot())[ch := t.Record()]
    {
      if ch !in tickets {
        order := order + [ch];
      }
      FilingKeepsKeys(old(tickets), old(order), ch, t);
      tickets := tickets[ch := t];
      forall k | k in Snapshot()
        ensures Snapshot()[k] == old(Snapshot())[ch := t.Record()][k]
      {
        if k != ch {
          assert tickets[k] == old(tickets)[k];
        }
      }
    }

    /** `findOpenTicketByUser(userId)`: scans the keys in order and stops at the first open ticket of `u`. */
    method FindOpenTicketByUser(u: UserId) returns (found: Option<ChannelId>, t: Ticket?)
      requires Valid()
      ensures found == FirstOpen(order, Snapshot(), u)
      ensures found.Some? ==> found.value in tickets && t == tickets[found.value] && OpenFor(t.Record(), u)
      ensures found.None? ==> t == null && forall ch :: ch in Snapshot() ==> !OpenFor(Snapshot()[ch], u)
    {
      var i := 0;
      while i < |order|
        invariant 0 <= i <= |order|
        invariant FirstOpen(order, Snapshot(), u) == FirstOpen(order[i..], Snapshot(), u)
      {
        var ch := order[i];
        assert order[i..][1..] == order[i + 1..];
        var tk := tickets[ch];
        if tk.customerId == u && !tk.closed {
          FirstOpenSpec(order, Snapshot(), u);
          return Some(ch), tk;
        }
        i := i + 1;
      }
      FirstOpenSpec(order, Snapshot(), u);
      found, t := None, null;
    }

    /** `updateReceipt`, keeping only what it does to the store: stamp the object and file it again. */
    method UpdateReceipt(ch: ChannelId, t: Ticket, now: Timestamp)
      requires Valid() && ch in tickets && tickets[ch] == t
      modifies this, t
      ensures Valid() && tickets == old(tickets) && order == old(order)
      ensures t.Record() == Touch(old(t.Record()), now)
    {
      t.Stamp(now);
      SetTicket(ch, t);
    }

    /** The tail every branch that changes a ticket shares: `setTicket`, then `updateReceipt`. */
    method Commit(ch: ChannelId, t: Ticket, now: Timestamp)
      requires Valid() && ch in tickets && tickets[ch] == t
      modifies this, t
      ensures Valid() && tickets == old(tickets) && order == old(order)
      ensures t.Record() == Touch(old(t.Record()), now)
    {
      SetTicket(ch, t);
      UpdateReceipt(ch, t, now);
    }

    /**
     * The store's records after the object filed under `ch` changed and
     * nothing else did.
     */
    twostate lemma OnlyOneRecordChanged(ch: ChannelId)
      requires old(Valid()) && tickets == old(tickets) && ch in tickets
      requires forall k :: k in tickets && k != ch ==> unchanged(tickets[k])
      ensures Snapshot() == old(Snapshot())[ch := tickets[ch].Record()]
    {
      assert Snapshot().Keys == old(Snapshot()).Keys;
      forall k | k in Snapshot()
        ensures Snapshot()[k] == old(Snapshot())[ch := tickets[ch].Record()][k]
      {
        if k != ch {
          assert unchanged(tickets[k]);
        }
      }
    }

    /**
     * `createTicketChannel`: reuse the customer's first open ticket while its
     * channel is still in the guild (`live`); otherwise file a new ticket
     * under the channel the platform provisioned for it.
     */
    method CreateTicketChannel(user: UserId, live: set<ChannelId>, newChannel: ChannelId, code: string,
                               receipt: MessageId, now: Timestamp) returns (ch: ChannelId)
      requires Valid()
      modifies this
      ensures Valid()
      ensures var first := FirstOpen(old(order), old(Snapshot()), user);
        if first.Some? && first.value in live then
          ch == first.value && tickets == old(tickets) && order == old(order)
        else
          && ch == newChannel && ch in tickets && fresh(tickets[ch])
          && tickets == old(tickets)[ch := tickets[ch]]
          && order == (if ch in old(tickets) then old(order) else old(order) + [ch])
          && Snapshot() == old(Snapshot())[ch := NewTicket(code, user, receipt, now)]
    {
      var existing, _ := FindOpenTicketByUser(user);
      if existing.Some? && existing.value in live {
        return existing.value;
      }
      ghost var before := Snapshot();
      assert before == old(Snapshot());
      var t := new Ticket(NewTicket(code, user, receipt, now));
      assert forall k :: k in tickets ==> tickets[k] != t;
      assert Snapshot() == before;
      SetTicket(newChannel, t);
      ch := newChannel;
      assert Snapshot() == before[ch := NewTicket(code, user, receipt, now)];
    }

    /**
     * The button handler from the ticket lookup on; the "open ticket" button
     * is answered before that lookup, by `CreateTicketChannel`.  `staff`
     * says whether the presser holds the staff role.
     */
    method OnButton(ch: ChannelId, id: string, staff: bool, actor: UserId, now: Timestamp) returns (o: Outcome)
      requires Valid() && id != OpenTicketButton
      modifies this, tickets.Values
      ensures Valid() && tickets == old(tickets) && order == old(order)
      ensures o == Button(Lookup(old(Snapshot()), ch), id, staff, actor, now)
      ensures Snapshot() == Apply(old(Snapshot()), ch, o)
    {
      var t := GetTicket(ch);
      if t == null {
        return Kept(NoTicket);
      }
      if CustomerSection(id) {
        o := PressCustomerButton(ch, t, id, now);
      } else {
        o := PressStaffButton(ch, t, id, staff, actor, now);
      }
    }

    /** The customer buttons of the channel's ticket `t`. */
    method PressCustomerButton(ch: ChannelId, t: Ticket, id: string, now: Timestamp) returns (o: Outcome)
      requires Valid() && ch in tickets && tickets[ch] == t
      modifies this, t
      ensures Valid() && tickets == old(tickets) && order == old(order)
      ensures o == CustomerButton(old(t.Record()), id, now)
      ensures Snapshot() == Apply(old(Snapshot()), ch, o)
    {
      if id == CallStaffButton || id == CheckButton {
        return Kept(ReplyOnly);
      }
      if id == PayButton {
        return if t.locked then Kept(ReplyOnly) else Kept(NotLocked);
      }
      if id == SlipButton {
        return Kept(ReplyOnly);
      }
      if !StartsWith(id, PayPrefix) {
        return Kept(Ignored);
      }
      t.SetPaymentMethod(id[|PayPrefix|..], now);
      Commit(ch, t, now);
      OnlyOneRecordChanged(ch);
      o := Updated(t.Record());
    }

    /** The staff buttons of the channel's ticket `t`, behind the staff-role check. */
    method PressStaffButton(ch: ChannelId, t: Ticket, id: string, staff: bool, actor: UserId, now: Timestamp)
      returns (o: Outcome)
      requires Valid() && ch in tickets && tickets[ch] == t
      modifies this, t
      ensures Valid() && tickets == old(tickets) && order == old(order)
      ensures o == StaffButton(old(t.Record()), id, staff, actor, now)
      ensures Snapshot() == Apply(old(Snapshot()), ch, o)
    {
      if StaffOnly(id) && !staff {
        return Kept(NotStaff);
      }
      if id == AddButton || id == EditButton || id == DeleteButton || id == VerifyButton {
        return Kept(ReplyOnly);
      }
      var done := t.StaffAction(id, actor);
      if !done {
        return Kept(Ignored);
      }
      Commit(ch, t, now);
      OnlyOneRecordChanged(ch);
      o := Updated(t.Record());
    }

    /** The staff form handler: staff check, ticket lookup, then the form's own checks. */
    method OnModalSubmit(ch: ChannelId, formId: string, staff: bool, actor: UserId, f: FormFields, now: Timestamp)
      returns (o: Outcome)
      requires Valid()
      modifies this, tickets.Values
      ensures Valid() && tickets == old(tickets) && order == old(order)
      ensures o == Modal(Lookup(old(Snapshot()), ch), formId, staff, actor, f, now)
      ensures Snapshot() == Apply(old(Snapshot()), ch, o)
    {
      if !staff {
        return Kept(NotStaff);
      }
      var t := GetTicket(ch);
      if t == null {
        return Kept(NoTicket);
      }
      o := SubmitItemForm(ch, t, formId, actor, f, now);
    }

    /** The add, edit and delete forms on the channel's ticket `t`, once the staff check and the lookup passed. */
    method SubmitItemForm(ch: ChannelId, t: Ticket, formId: string, actor: UserId, f: FormFields, now: Timestamp)
      returns (o: Outcome)
      requires Valid() && ch in tickets && tickets[ch] == t
      modifies this, t
      ensures Valid() && tickets == old(tickets) && order == old(order)
      ensures o == Modal(Some(old(t.Record())), formId, true, actor, f, now)
      ensures Snapshot() == Apply(old(Snapshot()), ch, o)
    {
      if formId == AddForm {
        if !ValidQtyPrice(f.qty, f.unit) {
          return Kept(InvalidQtyOrPrice);
        }
        t.PushItem(Item(f.name, f.qty.value, f.unit.value), actor);
      } else if formId == EditForm {
        var k := ItemIndex(f.position, |t.items|);
        if k.None? {
          return Kept(ItemNotFound);
        }
        if !ValidQtyPrice(f.qty, f.unit) {
          return Kept(InvalidQtyOrPrice);
        }
        t.SetQtyPrice(k.value, f.qty.value, f.unit.value);
      } else if formId == DeleteForm {
        var k := ItemIndex(f.position, |t.items|);
        if k.None? {
          return Kept(ItemNotFound);
        }
        t.SpliceItem(k.value);
      } else {
        return Kept(Ignored);
      }
      Commit(ch, t, now);
      OnlyOneRecordChanged(ch);
      o := Updated(t.Record());
    }

    /** The message listener that takes payment slips in a ticket channel. */
    method OnMessage(ch: ChannelId, m: ChatMessage, now: Timestamp) returns (o: Outcome)
      requires Valid()
      modifies this, tickets.Values
      ensures Valid() && tickets == old(tickets) && order == old(order)
      ensures o == Message(Lookup(old(Snapshot()), ch), m, now)
      ensures Snapshot() == Apply(old(Snapshot()), ch, o)
    {
      if m.fromBot || !m.inGuild {
        return Kept(Ignored);
      }
      var t := GetTicket(ch);
      if t == null || t.closed {
        return Kept(Ignored);
      }
      if m.authorId != t.customerId {
        return Kept(Ignored);
      }
      if m.attachment.None? {
        return Kept(Ignored);
      }
      if !t.locked || !Truthy(t.paymentMethod) {
        return Kept(SlipNotReady);
      }
      t.SetSlip(m.attachment.value);
      Commit(ch, t, now);
      OnlyOneRecordChanged(ch);
      o := Updated(t.Record());
    }
  }
}
