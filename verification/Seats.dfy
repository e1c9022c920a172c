/**
 Seats: the one register head, the state verbs that pass through it, and how far the two
 keep an event within its capacity.
 */
module Seats {
  import opened Wrappers
  import opened Text
  import opened Registrations

  datatype Kanban = Running | Finished | Cancelled

  datatype EventRow = EventRow(multiSlots: bool, limited: bool, max: int, kanban: Kanban, dateEnd: int)

  datatype Ticket = Ticket(eventId: Uuid, start: Option<int>, end: Option<int>)

  datatype OrderState = Sale | OrderCancel

  datatype SaleStatus = Free | ToPay | Sold

  datatype Reg = Reg(eventId: Uuid, slot: Option<Uuid>, ticket: Option<Uuid>, name: string, email: string,
                     phone: Option<string>, companyName: Option<string>, partnerId: Option<Uuid>,
                     state: RegState, active: bool,
                     barcode: string, dateClosed: Option<int>,
                     order: Option<Uuid>, orderState: Option<OrderState>, saleStatus: Option<SaleStatus>)

  /** The tables; `byBarcode` is the unique index, `armed` counts how often each event's
      mail rows were armed. */
  datatype Hall = Hall(events: map<Uuid, EventRow>, slots: map<Uuid, Uuid>, tickets: map<Uuid, Ticket>,
                       regs: map<Uuid, Reg>, byBarcode: map<string, Uuid>, armed: multiset<Uuid>)

  /** The sale a registration is born with. */
  datatype SaleLink = SaleLink(order: Uuid, status: SaleStatus, born: RegState)

  /** The id and barcode drawn for a new row. */
  datatype Draw = Draw(id: Uuid, barcode: string)

  datatype SeatError = EventNotFound | EventCancelled | SlotRequired | SlotNotOfEvent | TicketNotOfEvent
                     | SaleWindowClosed | SeatsExhausted | RegistrationNotFound | SlotViolation | UniqueViolation

  // ── seats ──

  predicate HoldsSeat(r: Reg) {
    (r.state == Open || r.state == Done) && r.active
  }

  /** The counting domain: over the slot when one is named, over the event otherwise. */
  predicate CountsFor(r: Reg, e: Uuid, slot: Option<Uuid>) {
    HoldsSeat(r) && r.eventId == e && (slot.Some? ==> r.slot == slot)
  }

  function SeatSet(regs: map<Uuid, Reg>, e: Uuid, slot: Option<Uuid>): (ids: set<Uuid>) {
    set id | id in regs && CountsFor(regs[id], e, slot)
  }

  predicate Full(ev: EventRow, taken: nat) {
    ev.limited && ev.max > 0 && taken >= ev.max
  }

  // ── the register head ──

  /** The slot the row will carry: checked on a multi-slot event, taken as given otherwise. */
  function SlotOf(h: Hall, ev: EventRow, cmd: RegisterCommand): (r: Result<Option<Uuid>, SeatError>) {
    if !ev.multiSlots then Ok(cmd.slot)
    else if cmd.slot == None then Err(SlotRequired)
    else if cmd.slot.value !in h.slots || h.slots[cmd.slot.value] != cmd.eventId then Err(SlotNotOfEvent)
    else Ok(cmd.slot)
  }

  /** The table's own rule, on any event: a slot that is named is one of the event's. */
  predicate SlotBelongs(h: Hall, cmd: RegisterCommand) {
    cmd.slot.Some? ==> cmd.slot.value in h.slots && h.slots[cmd.slot.value] == cmd.eventId
  }

  function TicketCheck(h: Hall, cmd: RegisterCommand, now: int): (e: Option<SeatError>) {
    if cmd.ticket == None then None
    else if cmd.ticket.value !in h.tickets || h.tickets[cmd.ticket.value].eventId != cmd.eventId
    then Some(TicketNotOfEvent)
    else
      var t := h.tickets[cmd.ticket.value];
      var shut := (t.start.Some? && now < t.start.value) || (t.end.Some? && now > t.end.value);
      if shut then Some(SaleWindowClosed) else None
  }

  function NewRow(cmd: RegisterCommand, slot: Option<Uuid>, link: Option<SaleLink>, barcode: string): (r: Reg) {
    Reg(cmd.eventId, slot, cmd.ticket, cmd.name, cmd.email, cmd.phone, cmd.companyName, cmd.partnerId,
        if link.Some? then link.value.born else Open, true, barcode, None,
        if link.Some? then Some(link.value.order) else None,
        if link.Some? then Some(Sale) else None,
        if link.Some? then Some(link.value.status) else None)
  }

  /** Locks, checks, the one count, the insert, the arm: refused in this order. */
  function RegisterCore(h: Hall, cmd: RegisterCommand, link: Option<SaleLink>, draw: Draw, now: int)
    : (r: Result<Hall, SeatError>)
  {
    if cmd.eventId !in h.events then Err(EventNotFound)
    else
      var ev := h.events[cmd.eventId];
      if ev.kanban == Cancelled then Err(EventCancelled)
      else
        match SlotOf(h, ev, cmd)
        case Err(e) => Err(e)
        case Ok(slot) =>
          match TicketCheck(h, cmd, now)
          case Some(e) => Err(e)
          case None =>
            if Full(ev, |SeatSet(h.regs, cmd.eventId, slot)|) then Err(SeatsExhausted)
            else if !SlotBelongs(h, cmd) then Err(SlotViolation)
            else if draw.id in h.regs || draw.barcode in h.byBarcode then Err(UniqueViolation)
            else
              var row := NewRow(cmd, slot, link, draw.barcode);
              Ok(h.(regs := h.regs[draw.id := row], byBarcode := h.byBarcode[draw.barcode := draw.id],
                    armed := if row.state == Open then h.armed + multiset{cmd.eventId} else h.armed))
  }

  // ── the state verbs ──

  function Moved(r: Reg, to: RegState, now: int): (m: Reg) {
    r.(state := to, dateClosed := if to == Done && r.dateClosed == None then Some(now) else r.dateClosed)
  }

  predicate TakesSeat(r: Reg, to: RegState) {
    r.active && (to == Open || to == Done) && (r.state == Draft || r.state == Cancel)
  }

  /** The arm rule: into open from draft or cancel, on an active row. */
  predicate EntersOpen(r: Reg, to: RegState) {
    r.active && to == Open && (r.state == Draft || r.state == Cancel)
  }

  /** Any state to any state; into the counting domain only through the head. */
  function Transition(h: Hall, id: Uuid, to: RegState, now: int): (r: Result<Hall, SeatError>) {
    if id !in h.regs then Err(RegistrationNotFound)
    else
      var row := h.regs[id];
      if TakesSeat(row, to) && row.eventId !in h.events then Err(EventNotFound)
      else if TakesSeat(row, to) && Full(h.events[row.eventId], |SeatSet(h.regs, row.eventId, row.slot) - {id}|)
      then Err(SeatsExhausted)
      else
        Ok(h.(regs := h.regs[id := Moved(row, to, now)],
              armed := if EntersOpen(row, to) then h.armed + multiset{row.eventId} else h.armed))
  }

  class SeatRepository {
    var hall: Hall

    constructor (hall: Hall)
      ensures this.hall == hall
    {
      this.hall := hall;
    }

    method Register(cmd: RegisterCommand, link: Option<SaleLink>, draw: Draw, now: int) returns (r: Result<Reg,
                    SeatError>)
      modifies this
      ensures match RegisterCore(old(hall), cmd, link, draw, now)
              case Err(e) => r == Err(e) && hall == old(hall)
              case Ok(h) => hall == h && draw.id in h.regs && r == Ok(h.regs[draw.id])
    {
      hide Full, SeatSet, TicketCheck;
      if cmd.eventId !in hall.events { return Err(EventNotFound); }
      var ev := hall.events[cmd.eventId];
      if ev.kanban == Cancelled { return Err(EventCancelled); }
      var slot := cmd.slot;
      if ev.multiSlots {
        if slot == None { return Err(SlotRequired); }
        if slot.value !in hall.slots || hall.slots[slot.value] != cmd.eventId { return Err(SlotNotOfEvent); }
      }
      var shut := TicketCheck(hall, cmd, now);
      if shut.Some? { return Err(shut.value); }
      var taken := |SeatSet(hall.regs, cmd.eventId, slot)|;
      if Full(ev, taken) { return Err(SeatsExhausted); }
      if slot.Some? && (slot.value !in hall.slots || hall.slots[slot.value] != cmd.eventId) {
        return Err(SlotViolation);
      }
      if draw.id in hall.regs || draw.barcode in hall.byBarcode { return Err(UniqueViolation); }
      var row := NewRow(cmd, slot, link, draw.barcode);
      hall := hall.(regs := hall.regs[draw.id := row], byBarcode := hall.byBarcode[draw.barcode := draw.id]);
      if row.state == Open { hall := hall.(armed := hall.armed + multiset{cmd.eventId}); }
      r := Ok(row);
    }

    /** Returns the state before and after; a refusal rolls the staged change back. */
    method Move(id: Uuid, to: RegState, now: int) returns (r: Result<(RegState, RegState), SeatError>)
      modifies this
      ensures match Transition(old(hall), id, to, now)
              case Err(e) => r == Err(e) && hall == old(hall)
              case Ok(h) => hall == h && r == Ok((old(hall).regs[id].state, to))
    {
      hide Full, SeatSet;
      if id !in hall.regs { return Err(RegistrationNotFound); }
      var row := hall.regs[id];
      var staged := hall.regs[id := Moved(row, to, now)];
      if TakesSeat(row, to) {
        if row.eventId !in hall.events { return Err(EventNotFound); }
        var taken := |SeatSet(staged, row.eventId, row.slot) - {id}|;
        assert SeatSet(staged, row.eventId, row.slot) - {id} == SeatSet(hall.regs, row.eventId, row.slot) - {id} by {
          OthersStay(hall.regs, id, Moved(row, to, now), row.eventId, row.slot);
        }
        if Full(hall.events[row.eventId], taken) { return Err(SeatsExhausted); }
      }
      hall := hall.(regs := staged);
      if row.active && to == Open && (row.state == Draft || row.state == Cancel) {
        hall := hall.(armed := hall.armed + multiset{row.eventId});
      }
      r := Ok((row.state, to));
    }
  }

  // ── one row changes ──

  lemma OthersStay(regs: map<Uuid, Reg>, id: Uuid, row: Reg, e: Uuid, slot: Option<Uuid>)
    ensures SeatSet(regs[id := row], e, slot) - {id} == SeatSet(regs, e, slot) - {id}
    ensures id in SeatSet(regs[id := row], e, slot) <==> CountsFor(row, e, slot)
  {
  }

  /** A row's change moves each count by that row alone. */
  lemma CountMoves(regs: map<Uuid, Reg>, id: Uuid, row: Reg, e: Uuid, slot: Option<Uuid>)
    ensures var was := id in regs && CountsFor(regs[id], e, slot);
            |SeatSet(regs[id := row], e, slot)| + (if was then 1 else 0)
            == |SeatSet(regs, e, slot)| + if CountsFor(row, e, slot) then 1 else 0
  {
    OthersStay(regs, id, row, e, slot);
    var a, b := SeatSet(regs, e, slot), SeatSet(regs[id := row], e, slot);
    assert id in a <==> id in regs && CountsFor(regs[id], e, slot);
    hide SeatSet, CountsFor;
    assert |a| == |a - {id}| + if id in a then 1 else 0;
    assert |b| == |b - {id}| + if id in b then 1 else 0;
  }

  // ── capacity ──

  predicate Capped(ev: EventRow) {
    ev.limited && ev.max > 0
  }

  /** A capped event holds no more than its cap: in each slot when it is multi-slot, in all when it is
      not. */
  ghost predicate Within(h: Hall, e: Uuid)
    requires e in h.events
  {
    Capped(h.events[e]) ==>
      if h.events[e].multiSlots then forall s: Uuid :: |SeatSet(h.regs, e, Some(s))| <= h.events[e].max
      else |SeatSet(h.regs, e, None)| <= h.events[e].max
  }

  ghost predicate SeatBound(h: Hall) {
    forall e :: e in h.events ==> Within(h, e)
  }

  /** The head counts per slot wherever the row names one, a capped event not flagged multi-slot
      included: there, a seat may go to a full event. */
  predicate CountedBesideTheCap(h: Hall, e: Uuid, slot: Option<Uuid>)
    requires e in h.events
  {
    Capped(h.events[e]) && !h.events[e].multiSlots && slot.Some? && |SeatSet(h.regs, e, None)| >= h.events[e].max
  }

  ghost predicate SameSetting(h: Hall, h': Hall) {
    h'.events == h.events && h'.slots == h.slots && h'.tickets == h.tickets
  }

  /** A seat taken through the head: the event stays within its cap if and only if the head
      counted what the cap is about. */
  lemma SeatTaken(h: Hall, h': Hall, id: Uuid, row: Reg)
    requires SameSetting(h, h') && h'.regs == h.regs[id := row] && row.eventId in h.events && HoldsSeat(row)
    requires id in h.regs ==> !HoldsSeat(h.regs[id])
    requires !Full(h.events[row.eventId], |SeatSet(h.regs, row.eventId, row.slot)|)
    requires Within(h, row.eventId)
    ensures Within(h', row.eventId) <==> !CountedBesideTheCap(h, row.eventId, row.slot)
  {
    hide SeatSet;
    var e := row.eventId;
    CountMoves(h.regs, id, row, e, None);
    CountMoves(h.regs, id, row, e, row.slot);
    forall s: Uuid ensures Some(s) != row.slot ==> |SeatSet(h'.regs, e, Some(s))| <= |SeatSet(h.regs, e, Some(s))| {
      CountMoves(h.regs, id, row, e, Some(s));
    }
  }

  /** A change that gives this event no seat leaves it within its cap. */
  lemma SeatNotTaken(h: Hall, h': Hall, id: Uuid, row: Reg, e: Uuid)
    requires SameSetting(h, h') && h'.regs == h.regs[id := row] && e in h.events && Within(h, e)
    requires !HoldsSeat(row) || row.eventId != e
        || (id in h.regs && HoldsSeat(h.regs[id]) && h.regs[id].eventId == e && h.regs[id].slot == row.slot)
    ensures Within(h', e)
  {
    hide SeatSet;
    CountMoves(h.regs, id, row, e, None);
    forall s: Uuid ensures |SeatSet(h'.regs, e, Some(s))| <= |SeatSet(h.regs, e, Some(s))| {
      CountMoves(h.regs, id, row, e, Some(s));
    }
  }

  lemma RegisterShape(h: Hall, cmd: RegisterCommand, link: Option<SaleLink>, draw: Draw, now: int)
    requires RegisterCore(h, cmd, link, draw, now).Ok?
    ensures var h' := RegisterCore(h, cmd, link, draw, now).value;
            && cmd.eventId in h.events && (h.events[cmd.eventId].multiSlots ==> cmd.slot.Some?) && SlotBelongs(h, cmd)
            && SameSetting(h, h') && draw.id !in h.regs
                && h'.regs == h.regs[draw.id := NewRow(cmd, cmd.slot, link, draw.barcode)]
            && !Full(h.events[cmd.eventId], |SeatSet(h.regs, cmd.eventId, cmd.slot)|)
            && h'.byBarcode == h.byBarcode[draw.barcode := draw.id] && draw.barcode !in h.byBarcode
  {
    hide SeatSet, Full, TicketCheck;
  }

  predicate BornSeated(link: Option<SaleLink>) {
    link.Some? ==> link.value.born == Open || link.value.born == Done
  }

  /**
   REGISTER AND THE CAP. From a hall within its caps, an accepted registration leaves it so
   if and only if it was not born seated under a slot into a full capped event that is not
   multi-slot.
   */
  lemma RegisterKeepsBoundIff(h: Hall, cmd: RegisterCommand, link: Option<SaleLink>, draw: Draw, now: int)
    requires SeatBound(h) && RegisterCore(h, cmd, link, draw, now).Ok?
    ensures SeatBound(RegisterCore(h, cmd, link, draw, now).value)
       <==> !(CountedBesideTheCap(h, cmd.eventId, cmd.slot) && BornSeated(link))
  {
    RegisterShape(h, cmd, link, draw, now);
    var h' := RegisterCore(h, cmd, link, draw, now).value;
    var row := NewRow(cmd, cmd.slot, link, draw.barcode);
    hide RegisterCore, Within, SlotOf, CountedBesideTheCap, Full;
    if HoldsSeat(row) { SeatTaken(h, h', draw.id, row); } else { SeatNotTaken(h, h', draw.id, row, cmd.eventId); }
    forall e | e in h.events && e != cmd.eventId ensures Within(h', e) { SeatNotTaken(h, h', draw.id, row, e); }
  }

  lemma TransitionShape(h: Hall, id: Uuid, to: RegState, now: int)
    requires Transition(h, id, to, now).Ok?
    ensures var h' := Transition(h, id, to, now).value;
            && id in h.regs
            && SameSetting(h, h') && h'.regs == h.regs[id := Moved(h.regs[id], to, now)] && h'.byBarcode == h.byBarcode
            && (TakesSeat(h.regs[id], to) ==>
                  h.regs[id].eventId in h.events
                  && !Full(h.events[h.regs[id].eventId], |SeatSet(h.regs, h.regs[id].eventId, h.regs[id].slot)|))
  {
    if TakesSeat(h.regs[id], to) {
      var s := SeatSet(h.regs, h.regs[id].eventId, h.regs[id].slot);
      assert s - {id} == s;
    }
    hide SeatSet, Full;
  }

  /** THE STATE VERBS AND THE CAP: the same, for a row a verb moves into the seats. */
  lemma TransitionKeepsBoundIff(h: Hall, id: Uuid, to: RegState, now: int)
    requires SeatBound(h) && Transition(h, id, to, now).Ok?
    ensures SeatBound(Transition(h, id, to, now).value)
       <==> !(id in h.regs && TakesSeat(h.regs[id], to) && h.regs[id].eventId in h.events
              && CountedBesideTheCap(h, h.regs[id].eventId, h.regs[id].slot))
  {
    TransitionShape(h, id, to, now);
    var h' := Transition(h, id, to, now).value;
    var row := Moved(h.regs[id], to, now);
    hide Transition, Within, CountedBesideTheCap, Full;
    if TakesSeat(h.regs[id], to) {
      SeatTaken(h, h', id, row);
      forall e | e in h.events && e != row.eventId ensures Within(h', e) { SeatNotTaken(h, h', id, row, e); }
    } else {
      forall e | e in h.events ensures Within(h', e) { SeatNotTaken(h, h', id, row, e); }
    }
  }

  function SlotCommand(e: Uuid, slot: Uuid): (c: RegisterCommand) {
    RegisterCommand(e, Some(slot), None, "", "", None, None, None, false)
  }

  /** TWO SLOTS, ONE SEAT: on a one-seat event that owns two slot rows but is not flagged multi-slot, two
      registrations naming one each are both seated. */
  lemma CapExceeded(h: Hall, e: Uuid, s: Uuid, t: Uuid, a: Draw, b: Draw, now: int)
    requires h.regs == map[] && h.byBarcode == map[] && s != t && a.id != b.id && a.barcode != b.barcode
    requires e in h.events && h.events[e] == EventRow(false, true, 1, Running, now + 1)
    requires s in h.slots && t in h.slots && h.slots[s] == h.slots[t] == e
    ensures var first := RegisterCore(h, SlotCommand(e, s), None, a, now);
            && first.Ok?
            && RegisterCore(first.value, SlotCommand(e, t), None, b, now).Ok?
            && SeatBound(first.value)
            && !SeatBound(RegisterCore(first.value, SlotCommand(e, t), None, b, now).value)
  {
    var c, d := SlotCommand(e, s), SlotCommand(e, t);
    assert SeatSet(h.regs, e, Some(s)) == {} && SeatSet(h.regs, e, None) == {};
    var h1 := RegisterCore(h, c, None, a, now).value;
    assert SeatSet(h1.regs, e, None) == {a.id} && SeatSet(h1.regs, e, Some(t)) == {};
    assert SeatBound(h) by {
      forall x | x in h.events ensures Within(h, x) {
        assert forall o :: SeatSet(h.regs, x, o) == {};
      }
    }
    RegisterKeepsBoundIff(h, c, None, a, now);
    RegisterKeepsBoundIff(h1, d, None, b, now);
  }
}
