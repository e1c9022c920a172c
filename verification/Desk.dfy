/**
 The registration desk: one scan, a frozen order of refusals, at most one write; and what a
 scan means among all the other verbs on the same rows.
 */
module Desk {
  import opened Wrappers
  import opened Text
  import opened Registrations
  import opened Seats
  import opened SaleSeam
  import SaleLaws

  datatype DeskError = DeskInvalidTicket | DeskCanceledRegistration | DeskUnconfirmedRegistration
                     | DeskEventNotFound | DeskNotOngoingEvent | DeskNeedManualConfirmation
                     | DeskAlreadyRegistered | DeskSeat(error: SeatError)

  /** The barcode index agrees with the rows: a barcode names one row. */
  ghost predicate Indexed(h: Hall) {
    && (forall b :: b in h.byBarcode ==> h.byBarcode[b] in h.regs && h.regs[h.byBarcode[b]].barcode == b)
    && (forall id :: id in h.regs ==> h.regs[id].barcode in h.byBarcode && h.byBarcode[h.regs[id].barcode] == id)
  }

  function FindByBarcode(h: Hall, barcode: string): (id: Option<Uuid>)
    ensures id.Some? ==> id.value in h.regs
  {
    if barcode in h.byBarcode && h.byBarcode[barcode] in h.regs then Some(h.byBarcode[barcode]) else None
  }

  predicate Ongoing(ev: EventRow, now: int) {
    ev.kanban == Running && now < ev.dateEnd
  }

  class DeskService {
    const seats: SeatRepository

    constructor (seats: SeatRepository)
      ensures this.seats == seats
    {
      this.seats := seats;
    }

    /** `now` is read at the event check, `later` at the write. Returns the row as written and
        the states before and after. */
    method RegisterAttendee(barcode: string, eventId: Uuid, now: int, later: int)
      returns (r: Result<(Reg, RegState, RegState), DeskError>)
      modifies seats
      ensures match Scan(old(seats.hall), barcode, eventId, now, later)
              case Err(e) => r == Err(e) && seats.hall == old(seats.hall)
              case Ok((h, id)) => seats.hall == h && id in old(seats.hall).regs && id in h.regs
                                  && r == Ok((h.regs[id], old(seats.hall).regs[id].state, h.regs[id].state))
    {
      hide SeatSet;
      var found := FindByBarcode(seats.hall, Trim(barcode));
      if found == None || !seats.hall.regs[found.value].active { return Err(DeskInvalidTicket); }
      var reg := seats.hall.regs[found.value];
      if reg.state == Cancel { return Err(DeskCanceledRegistration); }
      if reg.state == Draft { return Err(DeskUnconfirmedRegistration); }
      if eventId !in seats.hall.events { return Err(DeskEventNotFound); }
      var event := seats.hall.events[eventId];
      if event.kanban == Finished || event.kanban == Cancelled || event.dateEnd <= now {
        return Err(DeskNotOngoingEvent);
      }
      if reg.eventId != eventId { return Err(DeskNeedManualConfirmation); }
      if reg.state == Done { return Err(DeskAlreadyRegistered); }
      var moved := seats.Move(found.value, Done, later);
      if moved.Err? { return Err(DeskSeat(moved.error)); }
      r := Ok((seats.hall.regs[found.value], moved.value.0, moved.value.1));
    }
  }

  /** The scan as one step: the new hall and the row admitted, or why not. */
  function Scan(h: Hall, barcode: string, eventId: Uuid, now: int, later: int): (r: Result<(Hall, Uuid), DeskError>) {
    match FindByBarcode(h, Trim(barcode))
    case None => Err(DeskInvalidTicket)
    case Some(id) =>
      var reg := h.regs[id];
      if !reg.active then Err(DeskInvalidTicket)
      else if reg.state == Cancel then Err(DeskCanceledRegistration)
      else if reg.state == Draft then Err(DeskUnconfirmedRegistration)
      else if eventId !in h.events then Err(DeskEventNotFound)
      else if !Ongoing(h.events[eventId], now) then Err(DeskNotOngoingEvent)
      else if reg.eventId != eventId then Err(DeskNeedManualConfirmation)
      else if reg.state == Done then Err(DeskAlreadyRegistered)
      else
        match Transition(h, id, Done, later)
        case Err(e) => Err(DeskSeat(e))
        case Ok(h') => Ok((h', id))
  }

  /** WHAT A SCAN ANSWERS, each answer exactly when the checks before its own have passed: the ticket known and active,
      not cancelled, confirmed; the event known and on; the ticket its own; not yet registered. */
  lemma ScanAnswers(h: Hall, barcode: string, eventId: Uuid, now: int, later: int, id: Uuid)
    requires Indexed(h) && id in h.regs && h.regs[id].barcode == Trim(barcode)
    ensures var r, row := Scan(h, barcode, eventId, now, later), h.regs[id];
            var seated := row.active && row.state in {Open, Done};
            var known := eventId in h.events;
            var on := known && h.events[eventId].kanban == Running && now < h.events[eventId].dateEnd;
            && (r == Err(DeskInvalidTicket) <==> !row.active)
            && (r == Err(DeskCanceledRegistration) <==> row.active && row.state == Cancel)
            && (r == Err(DeskUnconfirmedRegistration) <==> row.active && row.state == Draft)
            && (r == Err(DeskEventNotFound) <==> seated && !known)
            && (r == Err(DeskNotOngoingEvent) <==> seated && known && !on)
            && (r == Err(DeskNeedManualConfirmation) <==> seated && on && row.eventId != eventId)
            && (r == Err(DeskAlreadyRegistered) <==> seated && on && row.eventId == eventId && row.state == Done)
            && (r.Ok? <==> seated && on && row.eventId == eventId && row.state == Open)
  {
    hide SeatSet, Trim;
  }

  /** A barcode no row carries is an invalid ticket. */
  lemma UnknownTicket(h: Hall, barcode: string, eventId: Uuid, now: int, later: int)
    requires Indexed(h) && forall id :: id in h.regs ==> h.regs[id].barcode != Trim(barcode)
    ensures Scan(h, barcode, eventId, now, later) == Err(DeskInvalidTicket)
  {
    hide SeatSet, Trim;
  }

  /** One row done, closed now unless it was closed before; nothing else. */
  ghost predicate ClosesOnly(h: Hall, h': Hall, id: Uuid, later: int)
    requires id in h.regs
  {
    var was := h.regs[id];
    var closed := if was.dateClosed.Some? then was.dateClosed else Some(later);
    h' == h.(regs := h.regs[id := was.(state := Done, dateClosed := closed)])
  }

  /**
   WHAT A SUCCESSFUL SCAN IS: exactly a scan of an active, open row under that barcode, of
   the scanned event, while the event is ongoing; and then that row is done, closed now unless
   it was closed before, no mail is armed, and nothing else has changed.
   */
  lemma ScanSucceedsIff(h: Hall, barcode: string, eventId: Uuid, now: int, later: int)
    ensures var id := FindByBarcode(h, Trim(barcode));
            && (Scan(h, barcode, eventId, now, later).Ok? <==>
                  id.Some? && h.regs[id.value].active && h.regs[id.value].state == Open
                      && h.regs[id.value].eventId == eventId
                  && eventId in h.events && Ongoing(h.events[eventId], now))
            && (Scan(h, barcode, eventId, now, later).Ok? ==>
                  var (h', admitted) := Scan(h, barcode, eventId, now, later).value;
                  Some(admitted) == id && ClosesOnly(h, h', admitted, later))
  {
    hide SeatSet, Trim;
  }

  /** Scanned twice in a row, a ticket is refused as already registered, if the event is still on. */
  lemma SecondScanRefused(h: Hall, barcode: string, eventId: Uuid, now: int, later: int, after: int)
    requires Indexed(h) && Scan(h, barcode, eventId, now, later).Ok?
    requires Ongoing(h.events[eventId], after)
    ensures Scan(Scan(h, barcode, eventId, now, later).value.0, barcode, eventId, after, after)
        == Err(DeskAlreadyRegistered)
  {
    hide SeatSet, Trim;
    ScanSucceedsIff(h, barcode, eventId, now, later);
  }

  // ── histories ──

  datatype Action = Admit(barcode: string, eventId: Uuid, now: int, later: int)
                  | RegisterNew(cmd: RegisterCommand, draw: Draw, now: int)
                  | Verb(id: Uuid, to: RegState, now: int)
                  | ConfirmOrder(specs: seq<RegisterCommand>, order: Uuid, free: bool, src: Source)
                  | HealOrder(heal: Heal, order: Uuid)
                  | HoldOrder(order: Uuid)
                  | CancelOrderGroup(order: Uuid)

  /** One step; a refused step leaves the hall as it was. */
  function Act(h: Hall, a: Action): (h': Hall) {
    match a
    case Admit(barcode, e, now, later) =>
      (match Scan(h, barcode, e, now, later) case Err(_) => h case Ok((h', _)) => h')
    case RegisterNew(cmd, draw, now) =>
      (match RegisterCore(h, cmd, None, draw, now) case Err(_) => h case Ok(h') => h')
    case Verb(id, to, now) =>
      (match Transition(h, id, to, now) case Err(_) => h case Ok(h') => h')
    case ConfirmOrder(specs, order, free, src) =>
      (match Mint(h, specs, LinkOf(order, free), src, 0) case Err(_) => h case Ok(h') => h')
    case HealOrder(heal, order) => HealGroup(h, heal, order)
    case HoldOrder(order) => Hold(h, order)
    case CancelOrderGroup(order) => CancelGroup(h, order)
  }

  ghost predicate IsHistory(halls: seq<Hall>, actions: seq<Action>) {
    && |halls| == |actions| + 1
    && halls[0].regs == map[] && halls[0].byBarcode == map[]
    && forall i :: 0 <= i < |actions| ==> halls[i + 1] == Act(halls[i], actions[i])
  }

  /** Rows are never lost and never change barcode. */
  ghost predicate RowsStay(h: Hall, h': Hall) {
    && (forall id :: id in h.regs ==> id in h'.regs && h'.regs[id].barcode == h.regs[id].barcode)
    && (forall b :: b in h.byBarcode ==> b in h'.byBarcode && h'.byBarcode[b] == h.byBarcode[b])
  }

  lemma RegisterKeepsIndex(h: Hall, cmd: RegisterCommand, link: Option<SaleLink>, draw: Draw, now: int)
    requires Indexed(h) && RegisterCore(h, cmd, link, draw, now).Ok?
    ensures var h' := RegisterCore(h, cmd, link, draw, now).value; Indexed(h') && RowsStay(h, h')
  {
    hide RegisterCore, SeatSet, Full, SlotBelongs;
    RegisterShape(h, cmd, link, draw, now);
    RowAddedKeepsIndex(h, RegisterCore(h, cmd, link, draw, now).value, draw, NewRow(cmd, cmd.slot, link, draw.barcode));
  }

  lemma RowAddedKeepsIndex(h: Hall, h': Hall, draw: Draw, row: Reg)
    requires Indexed(h) && draw.id !in h.regs && draw.barcode !in h.byBarcode && row.barcode == draw.barcode
    requires h'.regs == h.regs[draw.id := row] && h'.byBarcode == h.byBarcode[draw.barcode := draw.id]
    ensures Indexed(h') && RowsStay(h, h')
  {
  }

  lemma {:induction false} MintKeepsIndex(h: Hall, specs: seq<RegisterCommand>, link: SaleLink, src: Source, i: nat)
    requires Indexed(h) && Mint(h, specs, link, src, i).Ok?
    ensures var h' := Mint(h, specs, link, src, i).value; Indexed(h') && RowsStay(h, h')
    decreases |specs| - i
  {
    if i < |specs| {
      hide RegisterCore, Indexed, RowsStay;
      RegisterKeepsIndex(h, specs[i], Some(link), src.draw(i), src.at(i));
      var h1 := RegisterCore(h, specs[i], Some(link), src.draw(i), src.at(i)).value;
      MintKeepsIndex(h1, specs, link, src, i + 1);
      StayTransitive(h, h1, Mint(h1, specs, link, src, i + 1).value);
    } else {
      StayTransitive(h, h, h);
    }
  }

  lemma StayTransitive(h: Hall, h1: Hall, h2: Hall)
    ensures RowsStay(h, h)
    ensures RowsStay(h, h1) && RowsStay(h1, h2) ==> RowsStay(h, h2)
  {
  }

  lemma TransitionKeepsIndex(h: Hall, id: Uuid, to: RegState, now: int)
    requires Indexed(h) && Transition(h, id, to, now).Ok?
    ensures var h' := Transition(h, id, to, now).value; Indexed(h') && RowsStay(h, h')
  {
    TransitionShape(h, id, to, now);
    hide Transition, SeatSet, Full;
  }

  lemma GroupUpdateKeepsIndex(h: Hall, h': Hall)
    requires Indexed(h) && h'.byBarcode == h.byBarcode && h'.regs.Keys == h.regs.Keys
    requires forall id :: id in h.regs ==> h'.regs[id].barcode == h.regs[id].barcode
    ensures Indexed(h') && RowsStay(h, h')
  {
    assert forall id :: id in h'.regs <==> id in h.regs;
  }

  lemma ActKeepsIndex(h: Hall, a: Action)
    requires Indexed(h)
    ensures Indexed(Act(h, a)) && RowsStay(h, Act(h, a))
  {
    hide Transition, RegisterCore, Mint, Indexed, RowsStay;
    StayTransitive(h, h, h);
    match a
    case Admit(barcode, e, now, later) =>
      var id := FindByBarcode(h, Trim(barcode));
      if Scan(h, barcode, e, now, later).Ok? { TransitionKeepsIndex(h, id.value, Done, later); }
    case RegisterNew(cmd, draw, now) =>
      if RegisterCore(h, cmd, None, draw, now).Ok? { RegisterKeepsIndex(h, cmd, None, draw, now); }
    case Verb(id, to, now) =>
      if Transition(h, id, to, now).Ok? { TransitionKeepsIndex(h, id, to, now); }
    case ConfirmOrder(specs, order, free, src) =>
      if Mint(h, specs, LinkOf(order, free), src, 0).Ok? { MintKeepsIndex(h, specs, LinkOf(order, free), src, 0); }
    case HealOrder(heal, order) => GroupUpdateKeepsIndex(h, HealGroup(h, heal, order));
    case HoldOrder(order) => GroupUpdateKeepsIndex(h, Hold(h, order));
    case CancelOrderGroup(order) => GroupUpdateKeepsIndex(h, CancelGroup(h, order));
  }

  lemma {:induction false} HistoryIndexed(halls: seq<Hall>, actions: seq<Action>, i: nat)
    requires IsHistory(halls, actions) && i < |halls|
    ensures Indexed(halls[i])
  {
    if i > 0 {
      HistoryIndexed(halls, actions, i - 1);
      ActKeepsIndex(halls[i - 1], actions[i - 1]);
      hide Act, Indexed;
      assert halls[i - 1 + 1] == Act(halls[i - 1], actions[i - 1]);
    }
  }

  lemma {:induction false} HistoryStays(halls: seq<Hall>, actions: seq<Action>, i: nat, j: nat)
    requires IsHistory(halls, actions) && i <= j < |halls|
    ensures RowsStay(halls[i], halls[j])
    decreases j
  {
    hide Act, RowsStay;
    if i < j {
      HistoryStays(halls, actions, i, j - 1);
      HistoryIndexed(halls, actions, j - 1);
      ActKeepsIndex(halls[j - 1], actions[j - 1]);
      assert halls[j - 1 + 1] == Act(halls[j - 1], actions[j - 1]);
      StayTransitive(halls[i], halls[j - 1], halls[j]);
    } else {
      StayTransitive(halls[i], halls[i], halls[i]);
    }
  }

  predicate IsOpen(h: Hall, id: Uuid) {
    id in h.regs && h.regs[id].state == Open
  }

  /** A scan puts nobody into open. */
  lemma ScanOpensNobody(h: Hall, a: Action, id: Uuid)
    requires a.Admit? && IsOpen(Act(h, a), id)
    ensures IsOpen(h, id)
  {
    hide SeatSet, Trim, Full;
  }

  lemma {:induction false} SomeStepOpens(halls: seq<Hall>, actions: seq<Action>, id: Uuid, i: nat, j: nat)
    requires IsHistory(halls, actions) && i <= j < |halls|
    requires !IsOpen(halls[i], id) && IsOpen(halls[j], id)
    ensures exists k :: i <= k < j && !IsOpen(halls[k], id) && IsOpen(halls[k + 1], id)
    decreases j - i
  {
    if !IsOpen(halls[j - 1], id) {
      assert halls[j - 1 + 1] == halls[j];
    } else {
      SomeStepOpens(halls, actions, id, i, j - 1);
    }
  }

  ghost predicate SucceedsAt(halls: seq<Hall>, actions: seq<Action>, i: nat)
    requires IsHistory(halls, actions) && i < |actions|
  {
    actions[i].Admit? && Scan(halls[i], actions[i].barcode, actions[i].eventId, actions[i].now, actions[i].later).Ok?
  }

  ghost predicate ReopensAt(halls: seq<Hall>, actions: seq<Action>, k: nat, id: Uuid)
    requires IsHistory(halls, actions) && k < |actions|
  {
    !actions[k].Admit? && !IsOpen(halls[k], id) && IsOpen(halls[k + 1], id)
  }

  /**
   ONE ADMISSION PER OPENING. Over any history of scans, registrations, state verbs and sale
   deliveries, one after another: between two successful scans of one barcode some step other
   than a scan took that very row back into open.
   */
  lemma OneAdmissionPerOpening(halls: seq<Hall>, actions: seq<Action>, i: nat, j: nat)
    requires IsHistory(halls, actions) && i < j < |actions|
    requires SucceedsAt(halls, actions, i) && SucceedsAt(halls, actions, j)
    requires Trim(actions[i].barcode) == Trim(actions[j].barcode)
    ensures var id := FindByBarcode(halls[i], Trim(actions[i].barcode));
            id.Some? && exists k :: i < k < j && ReopensAt(halls, actions, k, id.value)
  {
    hide Trim, Act, IsOpen, FindByBarcode, Scan;
    HistoryStays(halls, actions, i, j);
    HistoryIndexed(halls, actions, i);
    assert halls[i + 1] == Act(halls[i], actions[i]);
    ScanClosesItsRow(halls[i], actions[i]);
    ScanClosesItsRow(halls[j], actions[j]);
    var id := FindByBarcode(halls[i], Trim(actions[i].barcode)).value;
    SameRowFound(halls[i], halls[j], Trim(actions[i].barcode));
    hide IsHistory;
    SomeStepOpens(halls, actions, id, i + 1, j);
    var k :| i + 1 <= k < j && !IsOpen(halls[k], id) && IsOpen(halls[k + 1], id);
    StepReopens(halls, actions, k, id);
  }

  lemma StepReopens(halls: seq<Hall>, actions: seq<Action>, k: nat, id: Uuid)
    requires IsHistory(halls, actions) && k < |actions| && !IsOpen(halls[k], id) && IsOpen(halls[k + 1], id)
    ensures ReopensAt(halls, actions, k, id)
  {
    hide Act, IsOpen;
    assert halls[k + 1] == Act(halls[k], actions[k]);
    if actions[k].Admit? { ScanOpensNobody(halls[k], actions[k], id); }
  }

  lemma SameRowFound(h: Hall, h': Hall, barcode: string)
    requires RowsStay(h, h') && FindByBarcode(h, barcode).Some?
    ensures FindByBarcode(h', barcode) == FindByBarcode(h, barcode)
  {
  }

  /** A successful scan finds its row open and leaves it closed. */
  lemma ScanClosesItsRow(h: Hall, a: Action)
    requires a.Admit? && Scan(h, a.barcode, a.eventId, a.now, a.later).Ok?
    ensures var id := FindByBarcode(h, Trim(a.barcode));
            id.Some? && IsOpen(h, id.value) && !IsOpen(Act(h, a), id.value)
  {
    hide Trim;
    ScanSucceedsIff(h, a.barcode, a.eventId, a.now, a.later);
    hide Scan, FindByBarcode;
  }

  // ── the cap over whole histories ──

  /** If the step goes through, whom it seats is counted by the cap, or fits. */
  ghost predicate Fits(h: Hall, a: Action) {
    match a
    case RegisterNew(cmd, draw, now) =>
      RegisterCore(h, cmd, None, draw, now).Ok? && cmd.eventId in h.events ==>
        !CountedBesideTheCap(h, cmd.eventId, cmd.slot)
    case Verb(id, to, now) =>
      Transition(h, id, to, now).Ok? && id in h.regs && TakesSeat(h.regs[id], to) && h.regs[id].eventId in h.events ==>
        !CountedBesideTheCap(h, h.regs[id].eventId, h.regs[id].slot)
    case ConfirmOrder(specs, order, free, src) =>
      Mint(h, specs, LinkOf(order, free), src, 0).Ok? ==>
        forall e :: e in h.events ==> SaleLaws.RoomToMint(h, specs, LinkOf(order, free), e)
    case HealOrder(heal, order) => forall e :: e in h.events ==> SaleLaws.RoomFor(h, heal, order, e)
    case _ => true
  }

  lemma ActKeepsBoundIff(h: Hall, a: Action)
    requires SeatBound(h)
    ensures SeatBound(Act(h, a)) <==> Fits(h, a)
  {
    hide Transition, RegisterCore, Mint, SeatBound, Hold, CancelGroup, CountedBesideTheCap, Within, HealGroup;
    match a
    case Admit(barcode, e, now, later) =>
      var id := FindByBarcode(h, Trim(barcode));
      if Scan(h, barcode, e, now, later).Ok? { TransitionKeepsBoundIff(h, id.value, Done, later); }
    case RegisterNew(cmd, draw, now) =>
      if RegisterCore(h, cmd, None, draw, now).Ok? {
        RegisterShape(h, cmd, None, draw, now);
        RegisterKeepsBoundIff(h, cmd, None, draw, now);
      }
    case Verb(id, to, now) =>
      if Transition(h, id, to, now).Ok? { TransitionKeepsBoundIff(h, id, to, now); }
    case ConfirmOrder(specs, order, free, src) =>
      if Mint(h, specs, LinkOf(order, free), src, 0).Ok? {
        SaleLaws.MintKeepsBoundIff(h, specs, LinkOf(order, free), src);
      }
    case HealOrder(heal, order) => HealBound(h, heal, order);
    case HoldOrder(order) => SaleLaws.HoldAndCancelKeepBound(h, order);
    case CancelOrderGroup(order) => SaleLaws.HoldAndCancelKeepBound(h, order);
  }

  lemma HealBound(h: Hall, heal: Heal, order: Uuid)
    ensures SeatBound(HealGroup(h, heal, order)) <==> forall e :: e in h.events ==> SaleLaws.RoomFor(h, heal, order, e)
  {
    hide Within, SaleLaws.RoomFor;
    forall e | e in h.events
      ensures e in HealGroup(h, heal, order).events
      ensures Within(HealGroup(h, heal, order), e) <==> SaleLaws.RoomFor(h, heal, order, e)
    {
      SaleLaws.HealKeepsCapIff(h, heal, order, e);
    }
  }

  /** NO EVENT EVER OVER ITS CAP, in exactly those histories whose every step fits. */
  lemma {:induction false} SeatBoundOverHistories(halls: seq<Hall>, actions: seq<Action>, i: nat)
    requires IsHistory(halls, actions) && i < |halls|
    ensures (forall k :: 0 <= k <= i ==> SeatBound(halls[k]))
        <==> (forall k :: 0 <= k < i ==> Fits(halls[k], actions[k]))
  {
    hide Act, Fits, SeatBound;
    if i > 0 {
      SeatBoundOverHistories(halls, actions, i - 1);
      assert halls[i - 1 + 1] == Act(halls[i - 1], actions[i - 1]);
      if SeatBound(halls[i - 1]) { ActKeepsBoundIff(halls[i - 1], actions[i - 1]); }
    } else {
      SaleLaws.EmptyIsBound(halls[0]);
    }
  }
}
