/**
 The sale seam: an order's attendees minted through the register head, healed when the order
 is confirmed again or paid, cancelled as a group; each delivery consumed once.
 */
module SaleSeam {
  import opened Wrappers
  import opened Text
  import opened Registrations
  import opened Seats

  datatype Spec = Spec(eventId: Uuid, slot: Option<Uuid>, ticket: Option<Uuid>, name: string, email: string,
                       phone: Option<string>, companyName: Option<string>, partnerId: Option<Uuid>)

  datatype OrderConfirmed = OrderConfirmed(delivery: Option<string>, order: Uuid, total: string, specs: seq<Spec>)

  /** A booth with the order line it was booked on. */
  datatype Booth = Booth(line: Option<Uuid>, paid: bool)

  datatype Seam = Seam(hall: Hall, booths: map<Uuid, Booth>, inbox: set<(string, string)>)

  datatype Outcome = Outcome(alreadyApplied: bool, touched: nat, latched: nat)

  const ALREADY_APPLIED := Outcome(true, 0, 0)

  datatype SeamError = NothingToMint | NeedsSlot(eventId: Uuid) | Refused(error: SeatError)

  /** Ids and barcodes drawn, and the clock read, at each mint of a delivery. */
  datatype Source = Source(draw: nat -> Draw, at: nat -> int)

  function ClaimKey(verb: string, delivery: Option<string>, order: Uuid): (k: string) {
    verb + ":" + if delivery.Some? then delivery.value else UuidText(order)
  }

  /** Every admitted field, no exemption from the lead queue. */
  function CommandOf(spec: Spec): (c: RegisterCommand) {
    RegisterCommand(spec.eventId, spec.slot, spec.ticket, spec.name, spec.email, spec.phone, spec.companyName,
        spec.partnerId, false)
  }

  function Commands(specs: seq<Spec>): (cs: seq<RegisterCommand>)
    ensures |cs| == |specs| && forall i :: 0 <= i < |specs| ==> cs[i] == CommandOf(specs[i])
  {
    seq(|specs|, i requires 0 <= i < |specs| => CommandOf(specs[i]))
  }

  // ── the routing guard ──

  predicate Unroutable(h: Hall, spec: Spec) {
    spec.eventId in h.events && h.events[spec.eventId].multiSlots && spec.slot == None
  }

  /** The first spec that names no slot on a multi-slot event. */
  function FirstUnroutable(h: Hall, specs: seq<Spec>): (e: Option<Uuid>)
    ensures e == None <==> forall i :: 0 <= i < |specs| ==> !Unroutable(h, specs[i])
  {
    if specs == [] then None
    else if Unroutable(h, specs[0]) then Some(specs[0].eventId)
    else
      assert specs == [specs[0]] + specs[1..];
      FirstUnroutable(h, specs[1..])
  }

  // ── the mint ──

  function Linked(regs: map<Uuid, Reg>, order: Uuid): (ids: set<Uuid>) {
    set id | id in regs && regs[id].order == Some(order)
  }

  /** Specs i, i + 1, ... through the head in turn; one refusal refuses them all. */
  function Mint(h: Hall, specs: seq<RegisterCommand>, link: SaleLink, src: Source, i: nat): (r: Result<Hall, SeatError>)
    decreases |specs| - i
  {
    if i >= |specs| then Ok(h)
    else
      match RegisterCore(h, specs[i], Some(link), src.draw(i), src.at(i))
      case Err(e) => Err(e)
      case Ok(h1) => Mint(h1, specs, link, src, i + 1)
  }

  function LinkOf(order: Uuid, free: bool): (l: SaleLink) {
    if free then SaleLink(order, Free, Open) else SaleLink(order, ToPay, Draft)
  }

  // ── the group updates ──

  /** A free order's second confirmation, or the paid fact. */
  datatype Heal = FreeHeal | PaidHeal

  predicate Lifts(heal: Heal, order: Uuid, r: Reg) {
    r.order == Some(order) && (r.state == Draft || r.state == Cancel) && r.active
        && (heal == PaidHeal ==> r.saleStatus == Some(ToPay))
  }

  /** One row under a heal; the paid fact also settles the rows it does not lift. */
  function Healed(heal: Heal, order: Uuid, r: Reg): (h: Reg) {
    if Lifts(heal, order, r)
    then r.(state := Open, orderState := Some(Sale), saleStatus := Some(if heal == FreeHeal then Free else Sold))
    else if heal == PaidHeal && r.order == Some(order) && r.saleStatus == Some(ToPay) && r.active
    then r.(saleStatus := Some(Sold))
    else r
  }

  function EventsOf(regs: map<Uuid, Reg>, order: Uuid): (es: set<Uuid>) {
    set id | id in Linked(regs, order) :: regs[id].eventId
  }

  function HealGroup(h: Hall, heal: Heal, order: Uuid): (r: Hall) {
    h.(regs := map id | id in h.regs :: Healed(heal, order, h.regs[id]),
       armed := h.armed + multiset(EventsOf(h.regs, order)))
  }

  function LiftedIds(h: Hall, heal: Heal, order: Uuid): (ids: set<Uuid>) {
    set id | id in h.regs && Lifts(heal, order, h.regs[id])
  }

  /** A paid order confirmed again: mirrors set, nobody moved. */
  function Hold(h: Hall, order: Uuid): (r: Hall) {
    h.(regs := map id | id in h.regs ::
         if h.regs[id].order == Some(order) && h.regs[id].active
         then h.regs[id].(orderState := Some(Sale), saleStatus := Some(ToPay)) else h.regs[id])
  }

  function ActiveLinked(h: Hall, order: Uuid): (ids: set<Uuid>) {
    set id | id in h.regs && h.regs[id].order == Some(order) && h.regs[id].active
  }

  /** The cascade: the group to cancel, the payability kept. */
  function CancelGroup(h: Hall, order: Uuid): (r: Hall) {
    h.(regs := map id | id in h.regs ::
         if h.regs[id].order == Some(order) && h.regs[id].active
         then h.regs[id].(state := Cancel, orderState := Some(OrderCancel)) else h.regs[id])
  }

  // ── the deliveries ──

  function Deliver(s: Seam, consumer: string, delivery: Option<string>, order: Uuid, free: bool,
                   specs: seq<RegisterCommand>, src: Source): (r: Result<(Seam, Outcome), SeamError>)
  {
    var key := (consumer, ClaimKey("confirmed", delivery, order));
    if key in s.inbox then Ok((s, ALREADY_APPLIED))
    else
      var inbox := s.inbox + {key};
      if Linked(s.hall.regs, order) == {} then
        match Mint(s.hall, specs, LinkOf(order, free), src, 0)
        case Err(e) => Err(Refused(e))
        case Ok(h) => Ok((Seam(h, s.booths, inbox), Outcome(false, |specs|, 0)))
      else if free then
        Ok((Seam(HealGroup(s.hall, FreeHeal, order), s.booths, inbox),
            Outcome(false, |LiftedIds(s.hall, FreeHeal, order)|, 0)))
      else
        Ok((Seam(Hold(s.hall, order), s.booths, inbox), Outcome(false, |ActiveLinked(s.hall, order)|, 0)))
  }

  function Confirm(s: Seam, consumer: string, cmd: OrderConfirmed, free: bool, src: Source)
    : (r: Result<(Seam, Outcome), SeamError>)
  {
    if cmd.specs == [] then Err(NothingToMint)
    else
      match FirstUnroutable(s.hall, cmd.specs)
      case Some(e) => Err(NeedsSlot(e))
      case None => Deliver(s, consumer, cmd.delivery, cmd.order, free, Commands(cmd.specs), src)
  }

  function CancelOrder(s: Seam, consumer: string, delivery: Option<string>, order: Uuid): (r: (Seam, Outcome)) {
    var key := (consumer, ClaimKey("cancelled", delivery, order));
    if key in s.inbox then (s, ALREADY_APPLIED)
    else (Seam(CancelGroup(s.hall, order), s.booths, s.inbox + {key}), Outcome(false, |ActiveLinked(s.hall, order)|, 0))
  }

  /** The booths of the lines not yet paid. */
  function ToLatch(booths: map<Uuid, Booth>, lines: seq<Uuid>): (ids: set<Uuid>) {
    set id | id in booths && !booths[id].paid && booths[id].line.Some? && booths[id].line.value in lines
  }

  /** One-way: paid booths stay paid. */
  function Latch(booths: map<Uuid, Booth>, lines: seq<Uuid>): (r: map<Uuid, Booth>) {
    map id | id in booths :: if id in ToLatch(booths, lines) then booths[id].(paid := true) else booths[id]
  }

  function PayOrder(s: Seam, consumer: string, delivery: Option<string>, order: Uuid, lines: seq<Uuid>)
    : (r: (Seam, Outcome))
  {
    var key := (consumer, ClaimKey("paid", delivery, order));
    if key in s.inbox then (s, ALREADY_APPLIED)
    else
      (Seam(HealGroup(s.hall, PaidHeal, order), Latch(s.booths, lines), s.inbox + {key}),
       Outcome(false, |LiftedIds(s.hall, PaidHeal, order)|, |ToLatch(s.booths, lines)|))
  }

  // ── the service ──

  /** Ascending, without repeats. */
  ghost predicate Ascending(ids: seq<Uuid>) {
    forall i, j :: 0 <= i < j < |ids| ==> ids[i] < ids[j]
  }

  ghost predicate Sorted(ids: seq<Uuid>) {
    forall i, j :: 0 <= i < j < |ids| ==> ids[i] <= ids[j]
  }

  function InsertId(x: Uuid, s: seq<Uuid>): (r: seq<Uuid>) {
    if s == [] || x <= s[0] then [x] + s else [s[0]] + InsertId(x, s[1..])
  }

  /** `sort_unstable` */
  function SortIds(s: seq<Uuid>): (r: seq<Uuid>) {
    if s == [] then [] else InsertId(s[0], SortIds(s[1..]))
  }

  lemma {:induction false} InsertSorts(x: Uuid, s: seq<Uuid>)
    requires Sorted(s)
    ensures Sorted(InsertId(x, s)) && forall y :: y in InsertId(x, s) <==> y == x || y in s
  {
    if s != [] && x > s[0] {
      InsertSorts(x, s[1..]);
      var r := InsertId(x, s[1..]);
      assert s == [s[0]] + s[1..];
      forall j | 0 <= j < |r| ensures s[0] <= r[j] { assert r[j] in r; }
    }
  }

  lemma {:induction false} SortIdsSorts(s: seq<Uuid>)
    ensures Sorted(SortIds(s)) && forall y :: y in SortIds(s) <==> y in s
  {
    if s != [] {
      SortIdsSorts(s[1..]);
      InsertSorts(s[0], SortIds(s[1..]));
      assert s == [s[0]] + s[1..];
    }
  }

  method DistinctEvents(specs: seq<Spec>) returns (ids: seq<Uuid>)
    ensures Ascending(ids)
    ensures forall x :: x in ids <==> exists i :: 0 <= i < |specs| && specs[i].eventId == x
  {
    var all: seq<Uuid> := [];
    for i := 0 to |specs|
      invariant forall x :: x in all <==> exists k :: 0 <= k < i && specs[k].eventId == x
    {
      all := all + [specs[i].eventId];
    }
    SortIdsSorts(all);
    var sorted := SortIds(all);
    ids := [];
    for i := 0 to |sorted|
      invariant Ascending(ids) && (forall x :: x in ids <==> x in sorted[..i])
      invariant ids != [] <==> i > 0
      invariant i > 0 ==> ids[|ids| - 1] == sorted[i - 1]
    {
      assert sorted[..i + 1] == sorted[..i] + [sorted[i]];
      if ids == [] || ids[|ids| - 1] != sorted[i] { ids := ids + [sorted[i]]; }
    }
    assert sorted[..|sorted|] == sorted;
  }

  class SaleSeamService {
    var hall: Hall
    var booths: map<Uuid, Booth>
    var inbox: set<(string, string)>
    const consumer: string
    const isZero: string -> bool

    ghost function View(): Seam
      reads this
    {
      Seam(hall, booths, inbox)
    }

    constructor (hall: Hall, booths: map<Uuid, Booth>, consumer: string, isZero: string -> bool)
      ensures View() == Seam(hall, booths, {}) && this.consumer == consumer && this.isZero == isZero
    {
      this.hall, this.booths, this.inbox := hall, booths, {};
      this.consumer, this.isZero := consumer, isZero;
    }

    method MultiSlotFlags(ids: seq<Uuid>) returns (flags: map<Uuid, bool>)
      ensures flags == map e | e in ids && e in hall.events :: hall.events[e].multiSlots
    {
      flags := map e | e in ids && e in hall.events :: hall.events[e].multiSlots;
    }

    /** The specs, each through the head, in one transaction. */
    method MintAll(specs: seq<RegisterCommand>, link: SaleLink, src: Source) returns (r: Result<Hall, SeatError>)
      ensures r == Mint(hall, specs, link, src, 0)
    {
      hide RegisterCore;
      var staged := hall;
      var i := 0;
      while i < |specs|
        invariant 0 <= i <= |specs|
        invariant Mint(staged, specs, link, src, i) == Mint(hall, specs, link, src, 0)
      {
        var minted := RegisterCore(staged, specs[i], Some(link), src.draw(i), src.at(i));
        if minted.Err? { return Err(minted.error); }
        staged := minted.value;
        i := i + 1;
      }
      r := Ok(staged);
    }

    method OnOrderConfirmed(cmd: OrderConfirmed, src: Source) returns (r: Result<Outcome, SeamError>)
      modifies this
      ensures match Confirm(old(View()), consumer, cmd, isZero(cmd.total), src)
              case Err(e) => r == Err(e) && View() == old(View())
              case Ok((s, o)) => r == Ok(o) && View() == s
    {
      hide Mint, HealGroup, Hold, LiftedIds, ActiveLinked, Linked, UuidText;
      if cmd.specs == [] { return Err(NothingToMint); }
      var distinct := DistinctEvents(cmd.specs);
      var flags := MultiSlotFlags(distinct);
      var specs: seq<RegisterCommand> := [];
      var i := 0;
      while i < |cmd.specs|
        invariant 0 <= i <= |cmd.specs| && View() == old(View())
        invariant FirstUnroutable(hall, cmd.specs) == FirstUnroutable(hall, cmd.specs[i..])
      {
        var spec := cmd.specs[i];
        assert spec.eventId in distinct && cmd.specs[i..][1..] == cmd.specs[i + 1..];
        if spec.eventId in flags && flags[spec.eventId] && spec.slot == None { return Err(NeedsSlot(spec.eventId)); }
        i := i + 1;
      }
      for k := 0 to |cmd.specs|
        invariant specs == Commands(cmd.specs)[..k]
        invariant View() == old(View())
      {
        specs := specs + [CommandOf(cmd.specs[k])];
      }
      assert specs == Commands(cmd.specs);
      r := Repository(cmd, specs, src);
    }

    method Repository(cmd: OrderConfirmed, specs: seq<RegisterCommand>, src: Source)
      returns (r: Result<Outcome, SeamError>)
      modifies this
      ensures match Deliver(old(View()), consumer, cmd.delivery, cmd.order, isZero(cmd.total), specs, src)
              case Err(e) => r == Err(e) && View() == old(View())
              case Ok((s, o)) => r == Ok(o) && View() == s
    {
      hide Mint, HealGroup, Hold, LiftedIds, ActiveLinked, Linked, UuidText;
      var free := isZero(cmd.total);
      var key := (consumer, ClaimKey("confirmed", cmd.delivery, cmd.order));
      if key in inbox { return Ok(ALREADY_APPLIED); }
      if Linked(hall.regs, cmd.order) == {} {
        var minted := MintAll(specs, LinkOf(cmd.order, free), src);
        if minted.Err? { return Err(Refused(minted.error)); }
        hall := minted.value;
        r := Ok(Outcome(false, |specs|, 0));
      } else if free {
        r := Ok(Outcome(false, |LiftedIds(hall, FreeHeal, cmd.order)|, 0));
        hall := HealGroup(hall, FreeHeal, cmd.order);
      } else {
        r := Ok(Outcome(false, |ActiveLinked(hall, cmd.order)|, 0));
        hall := Hold(hall, cmd.order);
      }
      inbox := inbox + {key};
    }

    method OnOrderCancelled(delivery: Option<string>, order: Uuid) returns (o: Outcome)
      modifies this
      ensures (View(), o) == CancelOrder(old(View()), consumer, delivery, order)
    {
      var key := (consumer, ClaimKey("cancelled", delivery, order));
      if key in inbox { return ALREADY_APPLIED; }
      o := Outcome(false, |ActiveLinked(hall, order)|, 0);
      hall := CancelGroup(hall, order);
      inbox := inbox + {key};
    }

    method OnOrderPaid(delivery: Option<string>, order: Uuid, lines: seq<Uuid>) returns (o: Outcome)
      modifies this
      ensures (View(), o) == PayOrder(old(View()), consumer, delivery, order, lines)
    {
      hide HealGroup, LiftedIds, UuidText;
      var key := (consumer, ClaimKey("paid", delivery, order));
      if key in inbox { return ALREADY_APPLIED; }
      var touched, latched := |LiftedIds(hall, PaidHeal, order)|, 0;
      hall := HealGroup(hall, PaidHeal, order);
      if lines != [] {
        latched := |ToLatch(booths, lines)|;
        booths := Latch(booths, lines);
      } else {
        assert ToLatch(booths, lines) == {};
        assert Latch(booths, lines) == booths;
      }
      inbox := inbox + {key};
      o := Outcome(false, touched, latched);
    }
  }
}
