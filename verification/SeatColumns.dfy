/**
 When the register head and the state verbs succeed, what they answer otherwise, and every column of
 the row they leave, in terms of the tables alone.
 */
module SeatColumns {
  import opened Wrappers
  import opened Text
  import opened Registrations
  import opened Seats

  // ── the conditions ──

  ghost predicate Live(h: Hall, e: Uuid) {
    e in h.events && h.events[e].kanban != Cancelled
  }

  predicate SlotOfEvent(h: Hall, slot: Uuid, e: Uuid) {
    slot in h.slots && h.slots[slot] == e
  }

  predicate TicketOfEvent(h: Hall, ticket: Uuid, e: Uuid) {
    ticket in h.tickets && h.tickets[ticket].eventId == e
  }

  /** From the start of its sale, if it has one, to the end, if it has one, both included. */
  predicate OnSale(t: Ticket, now: int) {
    && (match t.start case None => true case Some(s) => s <= now)
    && (match t.end case None => true case Some(e) => now <= e)
  }

  /** The active rows of the event that are open or done, of the slot where one is named. */
  function Seated(regs: map<Uuid, Reg>, e: Uuid, slot: Option<Uuid>): (ids: set<Uuid>) {
    set id | id in regs && regs[id].active && regs[id].state in {Open, Done} && regs[id].eventId == e
             && (slot == None || regs[id].slot == slot)
  }

  predicate HasRoom(ev: EventRow, taken: nat) {
    !ev.limited || ev.max <= 0 || taken < ev.max
  }

  lemma SeatedIsCounted(regs: map<Uuid, Reg>, e: Uuid, slot: Option<Uuid>)
    ensures SeatSet(regs, e, slot) == Seated(regs, e, slot)
  {
  }

  /** What stands between the caller and the count: event, slot, ticket. */
  ghost predicate MayAsk(h: Hall, cmd: RegisterCommand, now: int) {
    && Live(h, cmd.eventId) && SlotGiven(h, cmd)
    && (cmd.ticket.Some? ==>
          TicketOfEvent(h, cmd.ticket.value, cmd.eventId) && OnSale(h.tickets[cmd.ticket.value], now))
  }

  /** A multi-slot event needs a slot, and one of its own. */
  ghost predicate SlotGiven(h: Hall, cmd: RegisterCommand)
    requires cmd.eventId in h.events
  {
    h.events[cmd.eventId].multiSlots ==> cmd.slot.Some? && SlotOfEvent(h, cmd.slot.value, cmd.eventId)
  }

  ghost predicate Storable(h: Hall, cmd: RegisterCommand, draw: Draw) {
    && (cmd.slot.Some? ==> SlotOfEvent(h, cmd.slot.value, cmd.eventId))
    && draw.id !in h.regs && draw.barcode !in h.byBarcode
  }

  // ── the register head ──

  /**
   WHEN A REGISTRATION SUCCEEDS: exactly for an event that exists and is not cancelled; with a slot of the event where
   one is named, and one named where slots are kept; without a ticket or with one of the event's that is on
   sale; with room among those counted; under an id and a barcode not yet in use.
   */
  lemma RegisterSucceedsIff(h: Hall, cmd: RegisterCommand, link: Option<SaleLink>, draw: Draw, now: int)
    ensures RegisterCore(h, cmd, link, draw, now).Ok?
       <==> MayAsk(h, cmd, now)
            && HasRoom(h.events[cmd.eventId], |Seated(h.regs, cmd.eventId, cmd.slot)|)
            && Storable(h, cmd, draw)
  {
    SeatedIsCounted(h.regs, cmd.eventId, cmd.slot);
    hide SeatSet, Seated;
  }

  /** WHAT A REFUSED REGISTRATION ANSWERS, each answer exactly when the checks before its own have passed. */
  lemma RegisterRefusals(h: Hall, cmd: RegisterCommand, link: Option<SaleLink>, draw: Draw, now: int)
    ensures var r := RegisterCore(h, cmd, link, draw, now);
            var e := cmd.eventId;
            && (r == Err(EventNotFound) <==> e !in h.events)
            && (r == Err(EventCancelled) <==> e in h.events && !Live(h, e))
            && (r == Err(SlotRequired) <==> Live(h, e) && h.events[e].multiSlots && cmd.slot == None)
            && (r == Err(SlotNotOfEvent) <==>
                  Live(h, e) && h.events[e].multiSlots && cmd.slot.Some? && !SlotOfEvent(h, cmd.slot.value, e))
            && (r == Err(TicketNotOfEvent) <==>
                  Live(h, e) && SlotGiven(h, cmd) && cmd.ticket.Some? && !TicketOfEvent(h, cmd.ticket.value, e))
            && (r == Err(SaleWindowClosed) <==>
                  Live(h, e) && SlotGiven(h, cmd) && cmd.ticket.Some? && TicketOfEvent(h, cmd.ticket.value, e)
                  && !OnSale(h.tickets[cmd.ticket.value], now))
            && (r == Err(SeatsExhausted) <==>
                  MayAsk(h, cmd, now) && !HasRoom(h.events[e], |Seated(h.regs, e, cmd.slot)|))
            && (r == Err(SlotViolation) <==>
                  MayAsk(h, cmd, now) && HasRoom(h.events[e], |Seated(h.regs, e, cmd.slot)|)
                  && cmd.slot.Some? && !SlotOfEvent(h, cmd.slot.value, e))
  {
    SeatedIsCounted(h.regs, cmd.eventId, cmd.slot);
    hide SeatSet, Seated;
  }

  /** Every column the caller gave, as given; the state and the sale as linked; a fresh barcode; not closed. */
  ghost predicate RowOfCommand(row: Reg, cmd: RegisterCommand, link: Option<SaleLink>, barcode: string) {
    && row.eventId == cmd.eventId && row.slot == cmd.slot && row.ticket == cmd.ticket
    && row.name == cmd.name && row.email == cmd.email && row.phone == cmd.phone
    && row.companyName == cmd.companyName && row.partnerId == cmd.partnerId
    && row.active && row.barcode == barcode && row.dateClosed == None
    && match link
       case None => row.state == Open && row.order == None && row.orderState == None && row.saleStatus == None
       case Some(l) =>
         row.state == l.born && row.order == Some(l.order) && row.orderState == Some(Sale)
         && row.saleStatus == Some(l.status)
  }

  /** THE ROW REGISTERED, column by column; no other row moves, and the mails are armed for a row born open. */
  lemma RegisteredRow(h: Hall, cmd: RegisterCommand, link: Option<SaleLink>, draw: Draw, now: int)
    requires RegisterCore(h, cmd, link, draw, now).Ok?
    ensures var h' := RegisterCore(h, cmd, link, draw, now).value;
            && draw.id in h'.regs && RowOfCommand(h'.regs[draw.id], cmd, link, draw.barcode)
            && h'.regs == h.regs[draw.id := h'.regs[draw.id]]
            && h'.byBarcode == h.byBarcode[draw.barcode := draw.id]
            && h'.armed
                == h.armed + (if h'.regs[draw.id].state == Open then multiset{cmd.eventId} else multiset{})
            && SameSetting(h, h')
  {
    hide SeatSet, Full, TicketCheck;
  }

  // ── the state verbs ──

  /** An active row that is draft or cancelled, taken into open or done: it needs a seat. */
  predicate NeedsSeat(r: Reg, to: RegState) {
    r.active && r.state in {Draft, Cancel} && to in {Open, Done}
  }

  /** WHEN A STATE VERB SUCCEEDS: any known row into any state, and into a seat only of an event with room beside
      everybody else counted. */
  lemma TransitionSucceedsIff(h: Hall, id: Uuid, to: RegState, now: int)
    ensures var r := Transition(h, id, to, now);
            && (r == Err(RegistrationNotFound) <==> id !in h.regs)
            && (id in h.regs ==>
                  var row := h.regs[id];
                  var seat := NeedsSeat(row, to);
                  && (r == Err(EventNotFound) <==> seat && row.eventId !in h.events)
                  && (r == Err(SeatsExhausted) <==>
                        seat && row.eventId in h.events
                        && !HasRoom(h.events[row.eventId], |Seated(h.regs, row.eventId, row.slot) - {id}|))
                  && (r.Ok? <==>
                        (seat ==> row.eventId in h.events
                                  && HasRoom(h.events[row.eventId], |Seated(h.regs, row.eventId, row.slot) - {id}|))))
  {
    if id in h.regs { SeatedIsCounted(h.regs, h.regs[id].eventId, h.regs[id].slot); }
    hide SeatSet, Seated;
  }

  /** THE ROW MOVED: its state, and on its first done its closing date; no other column, no other row. The mails are
      armed when an active row enters open from draft or cancel. */
  lemma MovedRow(h: Hall, id: Uuid, to: RegState, now: int)
    requires Transition(h, id, to, now).Ok?
    ensures var h' := Transition(h, id, to, now).value;
            && id in h.regs
            && var was := h.regs[id];
               var closed := if to == Done && was.dateClosed == None then Some(now) else was.dateClosed;
               && h'.regs == h.regs[id := was.(state := to, dateClosed := closed)]
               && h'.armed == h.armed + (if NeedsSeat(was, to) && to == Open then multiset{was.eventId} else multiset{})
               && h'.byBarcode == h.byBarcode && SameSetting(h, h')
  {
    hide SeatSet, Full;
  }
}
