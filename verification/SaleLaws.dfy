/** What a delivery mints, what a replay does, and how the heals meet the seat cap. */
module SaleLaws {
  import opened Wrappers
  import opened Text
  import opened Sets
  import opened Registrations
  import opened Seats
  import opened SaleSeam

  // ── once per delivery ──

  /** A delivery that was answered is consumed: the same one again changes nothing. */
  lemma ConfirmedOnce(s: Seam, consumer: string, cmd: OrderConfirmed, free: bool, src: Source, again: Source,
                      freeAgain: bool)
    requires Confirm(s, consumer, cmd, free, src).Ok?
    ensures var s' := Confirm(s, consumer, cmd, free, src).value.0;
            Confirm(s', consumer, cmd, freeAgain, again) == Ok((s', ALREADY_APPLIED))
  {
    var s' := Confirm(s, consumer, cmd, free, src).value.0;
    assert SameSetting(s.hall, s'.hall) by { DeliveryKeepsSetting(s, consumer, cmd, free, src); }
    hide Mint, HealGroup, Hold, LiftedIds, ActiveLinked, Linked, UuidText, FirstUnroutable, Commands;
    SameGuard(s.hall, s'.hall, cmd.specs);
  }

  lemma DeliveryKeepsSetting(s: Seam, consumer: string, cmd: OrderConfirmed, free: bool, src: Source)
    requires Confirm(s, consumer, cmd, free, src).Ok?
    ensures SameSetting(s.hall, Confirm(s, consumer, cmd, free, src).value.0.hall)
  {
    hide LiftedIds, ActiveLinked, Linked, UuidText, FirstUnroutable, Commands, RegisterCore, Healed;
    var minted := Mint(s.hall, Commands(cmd.specs), LinkOf(cmd.order, free), src, 0);
    if minted.Ok? { MintMints(s.hall, Commands(cmd.specs), LinkOf(cmd.order, free), src, 0); }
    hide Mint, NewKeys, Extends, OwnRows;
  }

  /** So are a payment's and a cancellation's. */
  lemma PaidAndCancelledOnce(s: Seam, consumer: string, delivery: Option<string>, order: Uuid, lines: seq<Uuid>,
                             again: seq<Uuid>)
    ensures var s' := PayOrder(s, consumer, delivery, order, lines).0;
            PayOrder(s', consumer, delivery, order, again) == (s', ALREADY_APPLIED)
    ensures var s' := CancelOrder(s, consumer, delivery, order).0;
            CancelOrder(s', consumer, delivery, order) == (s', ALREADY_APPLIED)
  {
    hide HealGroup, CancelGroup, LiftedIds, ActiveLinked, UuidText, Latch, ToLatch;
  }

  // ── the booth latch ──

  /** A payment as delivered to one consumer. */
  datatype Payment = Payment(consumer: string, delivery: Option<string>, order: Uuid, lines: seq<Uuid>)

  function PaymentKey(p: Payment): (k: (string, string)) {
    (p.consumer, ClaimKey("paid", p.delivery, p.order))
  }

  function Paid(s: Seam, ps: seq<Payment>): (r: Seam) {
    if ps == [] then s
    else
      var p := ps[|ps| - 1];
      PayOrder(Paid(s, ps[..|ps| - 1]), p.consumer, p.delivery, p.order, p.lines).0
  }

  function KeysOf(ps: seq<Payment>): (keys: set<(string, string)>) {
    if ps == [] then {} else KeysOf(ps[..|ps| - 1]) + {PaymentKey(ps[|ps| - 1])}
  }

  /** Neither consumed before nor a repeat of an earlier one. */
  ghost predicate Fresh(s: Seam, ps: seq<Payment>, k: nat)
    requires k < |ps|
  {
    PaymentKey(ps[k]) !in s.inbox + KeysOf(ps[..k])
  }

  ghost predicate NamesLine(b: Booth, p: Payment) {
    b.line.Some? && b.line.value in p.lines
  }

  lemma {:induction false} KeysConsumed(s: Seam, ps: seq<Payment>)
    ensures Paid(s, ps).inbox == s.inbox + KeysOf(ps)
  {
    hide ClaimKey, HealGroup, Latch, ToLatch, LiftedIds;
    if ps != [] { KeysConsumed(s, ps[..|ps| - 1]); }
  }

  lemma LatchOne(booths: map<Uuid, Booth>, p: Payment, id: Uuid)
    requires id in booths
    ensures var r := Latch(booths, p.lines);
            id in r && r[id] == booths[id].(paid := booths[id].paid || NamesLine(booths[id], p))
  {
  }

  ghost predicate LatchesAt(s: Seam, ps: seq<Payment>, k: nat, b: Booth)
    requires k < |ps|
  {
    Fresh(s, ps, k) && NamesLine(b, ps[k])
  }

  ghost predicate NamedFresh(s: Seam, ps: seq<Payment>, b: Booth) {
    exists k :: 0 <= k < |ps| && LatchesAt(s, ps, k, b)
  }

  lemma PrefixLatches(s: Seam, front: seq<Payment>, last: Payment, k: nat, b: Booth)
    requires k < |front|
    ensures LatchesAt(s, front + [last], k, b) <==> LatchesAt(s, front, k, b)
  {
    hide KeysOf, PaymentKey, NamesLine;
    assert (front + [last])[..k] == front[..k];
  }

  lemma NamedFreshLast(s: Seam, front: seq<Payment>, last: Payment, b: Booth)
    ensures NamedFresh(s, front + [last], b) <==> NamedFresh(s, front, b) || LatchesAt(s, front + [last], |front|, b)
  {
    hide LatchesAt;
    forall k | 0 <= k < |front| ensures LatchesAt(s, front + [last], k, b) <==> LatchesAt(s, front, k, b) {
      PrefixLatches(s, front, last, k, b);
    }
  }

  /** THE BOOTH LATCH, over any payments in any order and however often repeated: a booth is paid at the end
      if and only if it was at the start or the first of some delivery's copies named its line. */
  lemma {:induction false} BoothsPaidIff(s: Seam, ps: seq<Payment>, id: Uuid)
    requires id in s.booths
    ensures id in Paid(s, ps).booths
    ensures Paid(s, ps).booths[id] == s.booths[id].(paid := s.booths[id].paid || NamedFresh(s, ps, s.booths[id]))
  {
    if ps == [] {
      hide PaymentKey, PayOrder, Fresh, NamesLine;
    } else {
      hide PaymentKey, NamedFresh, NamesLine, Paid, KeysOf;
      var front, last := ps[..|ps| - 1], ps[|ps| - 1];
      BoothsPaidIff(s, front, id);
      KeysConsumed(s, front);
      LastPayment(s, ps, id);
      SameLine(s.booths[id], Paid(s, front).booths[id], last);
      NamedFreshLast(s, front, last, s.booths[id]);
      assert ps == front + [last] && ps[..|front|] == front;
    }
  }

  lemma SameLine(a: Booth, b: Booth, p: Payment)
    requires a.line == b.line
    ensures NamesLine(a, p) == NamesLine(b, p)
  {
  }

  lemma LastPayment(s: Seam, ps: seq<Payment>, id: Uuid)
    requires ps != [] && id in Paid(s, ps[..|ps| - 1]).booths
    ensures var before, last := Paid(s, ps[..|ps| - 1]), ps[|ps| - 1];
            && id in Paid(s, ps).booths
            && Paid(s, ps).booths[id]
                == if PaymentKey(last) in before.inbox then before.booths[id]
                   else before.booths[id].(paid := before.booths[id].paid || NamesLine(before.booths[id], last))
  {
    hide ClaimKey, HealGroup, Latch, ToLatch, LiftedIds;
    LatchOne(Paid(s, ps[..|ps| - 1]).booths, ps[|ps| - 1], id);
  }

  // ── the mint ──

  function DrawnIds(src: Source, i: nat, n: nat): (ids: set<Uuid>) {
    set k | i <= k < n :: src.draw(k).id
  }

  /** As many new rows as specs, under the ids drawn for them. */
  ghost predicate NewKeys(h: Hall, h': Hall, src: Source, i: nat, n: nat) {
    && h'.regs.Keys == h.regs.Keys + DrawnIds(src, i, n)
    && |DrawnIds(src, i, n)| == (if i <= n then n - i else 0)
    && DrawnIds(src, i, n) !! h.regs.Keys
  }

  ghost predicate Extends<K, V>(m: map<K, V>, n: map<K, V>) {
    forall k :: k in m ==> k in n && n[k] == m[k]
  }

  ghost predicate HasRow(h: Hall, cmd: RegisterCommand, link: SaleLink, draw: Draw) {
    draw.id in h.regs && h.regs[draw.id] == NewRow(cmd, cmd.slot, Some(link), draw.barcode)
  }

  ghost predicate OwnRows(h: Hall, specs: seq<RegisterCommand>, link: SaleLink, src: Source, i: nat) {
    forall k :: i <= k < |specs| ==> HasRow(h, specs[k], link, src.draw(k))
  }

  /** Every spec has its own new row, and nothing else moved. */
  ghost predicate Minted(h: Hall, h': Hall, specs: seq<RegisterCommand>, link: SaleLink, src: Source, i: nat) {
    SameSetting(h, h') && NewKeys(h, h', src, i, |specs|) && Extends(h.regs, h'.regs)
        && OwnRows(h', specs, link, src, i)
  }

  lemma DrawnFirst(src: Source, i: nat, n: nat)
    requires i < n
    ensures DrawnIds(src, i, n) == {src.draw(i).id} + DrawnIds(src, i + 1, n)
  {
  }

  lemma OneMore<T>(k0: set<T>, k1: set<T>, k2: set<T>, x: T, rest: set<T>)
    requires x !in k0 && k1 == k0 + {x} && k2 == k1 + rest && rest !! k1
    ensures k2 == k0 + ({x} + rest) && ({x} + rest) !! k0 && |{x} + rest| == 1 + |rest|
  {
  }

  lemma InsertExtends<K, V>(m: map<K, V>, x: K, v: V, n: map<K, V>)
    requires x !in m && Extends(m[x := v], n)
    ensures Extends(m, n) && x in n && n[x] == v
    ensures m[x := v].Keys == m.Keys + {x}
  {
    assert x in m[x := v];
    forall k | k in m ensures k in n && n[k] == m[k] { assert k in m[x := v]; }
  }

  /** The first spec's row put before the others'. */
  lemma MintedFirst(h: Hall, h1: Hall, h': Hall, specs: seq<RegisterCommand>, link: SaleLink, src: Source, i: nat)
    requires i < |specs| && SameSetting(h, h1) && src.draw(i).id !in h.regs
    requires h1.regs == h.regs[src.draw(i).id := NewRow(specs[i], specs[i].slot, Some(link), src.draw(i).barcode)]
    requires Minted(h1, h', specs, link, src, i + 1)
    ensures Minted(h, h', specs, link, src, i)
  {
    hide NewRow, DrawnIds;
    var id, row := src.draw(i).id, NewRow(specs[i], specs[i].slot, Some(link), src.draw(i).barcode);
    InsertExtends(h.regs, id, row, h'.regs);
    hide Extends;
    DrawnFirst(src, i, |specs|);
    OneMore(h.regs.Keys, h1.regs.Keys, h'.regs.Keys, id, DrawnIds(src, i + 1, |specs|));
    assert HasRow(h', specs[i], link, src.draw(i));
    hide HasRow;
  }

  lemma NothingMinted(h: Hall, specs: seq<RegisterCommand>, link: SaleLink, src: Source, i: nat)
    requires i >= |specs|
    ensures Minted(h, h, specs, link, src, i)
  {
    assert DrawnIds(src, i, |specs|) == {};
  }

  lemma {:induction false} MintMints(h: Hall, specs: seq<RegisterCommand>, link: SaleLink, src: Source, i: nat)
    requires Mint(h, specs, link, src, i).Ok?
    ensures Minted(h, Mint(h, specs, link, src, i).value, specs, link, src, i)
    decreases |specs| - i
  {
    hide RegisterCore, NewRow, Full, SeatSet, Minted;
    if i < |specs| {
      RegisterShape(h, specs[i], Some(link), src.draw(i), src.at(i));
      var h1 := RegisterCore(h, specs[i], Some(link), src.draw(i), src.at(i)).value;
      MintMints(h1, specs, link, src, i + 1);
      MintedFirst(h, h1, Mint(h1, specs, link, src, i + 1).value, specs, link, src, i);
    } else {
      NothingMinted(h, specs, link, src, i);
    }
  }

  /** ONE DELIVERY, ONE GROUP. The first accepted confirmation of an order gives it exactly
      one row per spec, in the specs' order of draws, and no other row changes. */
  lemma FirstConfirmationMints(s: Seam, consumer: string, cmd: OrderConfirmed, free: bool, src: Source)
    requires Linked(s.hall.regs, cmd.order) == {}
    requires (consumer, ClaimKey("confirmed", cmd.delivery, cmd.order)) !in s.inbox
    requires Confirm(s, consumer, cmd, free, src).Ok?
    ensures var (s', o) := Confirm(s, consumer, cmd, free, src).value;
            && o == Outcome(false, |cmd.specs|, 0)
            && Minted(s.hall, s'.hall, Commands(cmd.specs), LinkOf(cmd.order, free), src, 0)
            && Linked(s'.hall.regs, cmd.order) == DrawnIds(src, 0, |cmd.specs|)
            && |Linked(s'.hall.regs, cmd.order)| == |cmd.specs|
  {
    hide Mint, HealGroup, Hold, UuidText, FirstUnroutable;
    MintMints(s.hall, Commands(cmd.specs), LinkOf(cmd.order, free), src, 0);
    MintedAreLinked(s.hall, Mint(s.hall, Commands(cmd.specs), LinkOf(cmd.order, free), src, 0).value,
        Commands(cmd.specs), LinkOf(cmd.order, free), src);
  }

  lemma MintedAreLinked(h: Hall, h': Hall, specs: seq<RegisterCommand>, link: SaleLink, src: Source)
    requires Minted(h, h', specs, link, src, 0) && Linked(h.regs, link.order) == {}
    ensures Linked(h'.regs, link.order) == DrawnIds(src, 0, |specs|)
  {
    forall id ensures id in Linked(h'.regs, link.order) <==> id in DrawnIds(src, 0, |specs|) {
      if id in h.regs {
        assert id !in Linked(h.regs, link.order) && h'.regs[id] == h.regs[id];
      } else if id in DrawnIds(src, 0, |specs|) {
        var k :| 0 <= k < |specs| && src.draw(k).id == id;
        assert HasRow(h', specs[k], link, src.draw(k));
      }
    }
  }

  /** Past the routing guard a mint is never refused for a missing slot. */
  lemma {:induction false} RoutedMintHasItsSlots(h: Hall, specs: seq<Spec>, link: SaleLink, src: Source, i: nat)
    requires FirstUnroutable(h, specs) == None
    ensures Mint(h, Commands(specs), link, src, i) != Err(SlotRequired)
    decreases |specs| - i
  {
    if i < |specs| {
      assert !Unroutable(h, specs[i]);
      var cmd := Commands(specs)[i];
      hide SeatSet, Full, TicketCheck;
      var r := RegisterCore(h, cmd, Some(link), src.draw(i), src.at(i));
      assert r != Err(SlotRequired);
      if r.Ok? {
        RegisterShape(h, cmd, Some(link), src.draw(i), src.at(i));
        hide RegisterCore;
        SameGuard(h, r.value, specs);
        RoutedMintHasItsSlots(r.value, specs, link, src, i + 1);
      }
    }
  }

  lemma SameGuard(h: Hall, h': Hall, specs: seq<Spec>)
    requires SameSetting(h, h') && FirstUnroutable(h, specs) == None
    ensures FirstUnroutable(h', specs) == None
  {
    assert forall i :: 0 <= i < |specs| ==> !Unroutable(h, specs[i]);
    assert forall i :: 0 <= i < |specs| ==> !Unroutable(h', specs[i]);
  }

  // ── seats ──

  predicate Flat(ev: EventRow) {
    Capped(ev) && !ev.multiSlots
  }

  /** How many of the specs from i on name the event. */
  function Naming(specs: seq<RegisterCommand>, e: Uuid, i: nat): (n: nat)
    decreases |specs| - i
  {
    if i >= |specs| then 0 else Naming(specs, e, i + 1) + if specs[i].eventId == e then 1 else 0
  }

  lemma {:induction false} MintCounts(h: Hall, specs: seq<RegisterCommand>, link: SaleLink, src: Source, i: nat,
                                      e: Uuid)
    requires Mint(h, specs, link, src, i).Ok?
    ensures var h' := Mint(h, specs, link, src, i).value;
            |SeatSet(h'.regs, e, None)|
            == |SeatSet(h.regs, e, None)| + if BornSeated(Some(link)) then Naming(specs, e, i) else 0
    decreases |specs| - i
  {
    if i < |specs| {
      var cmd, draw := specs[i], src.draw(i);
      RegisterShape(h, cmd, Some(link), draw, src.at(i));
      var h1 := RegisterCore(h, cmd, Some(link), draw, src.at(i)).value;
      hide RegisterCore, SeatSet, Full;
      CountMoves(h.regs, draw.id, NewRow(cmd, cmd.slot, Some(link), draw.barcode), e, None);
      MintCounts(h1, specs, link, src, i + 1, e);
    }
  }

  /** On an event that is not flat, or of rows not born seated, the head counts what the cap is about. */
  lemma {:induction false} MintKeepsWithin(h: Hall, specs: seq<RegisterCommand>, link: SaleLink, src: Source, i: nat,
                                           e: Uuid)
    requires Mint(h, specs, link, src, i).Ok? && e in h.events && Within(h, e)
    requires !Flat(h.events[e]) || !BornSeated(Some(link))
    ensures var h' := Mint(h, specs, link, src, i).value; e in h'.events && Within(h', e)
    decreases |specs| - i
  {
    if i < |specs| {
      var cmd, draw := specs[i], src.draw(i);
      RegisterShape(h, cmd, Some(link), draw, src.at(i));
      var h1 := RegisterCore(h, cmd, Some(link), draw, src.at(i)).value;
      var row := NewRow(cmd, cmd.slot, Some(link), draw.barcode);
      hide RegisterCore, SeatSet, Full, Within;
      if cmd.eventId == e && HoldsSeat(row) {
        SeatTaken(h, h1, draw.id, row);
      } else {
        SeatNotTaken(h, h1, draw.id, row, e);
      }
      MintKeepsWithin(h1, specs, link, src, i + 1, e);
    }
  }

  /** Rows born seated on a flat event fit beside the seats it holds. */
  ghost predicate RoomToMint(h: Hall, specs: seq<RegisterCommand>, link: SaleLink, e: Uuid)
    requires e in h.events
  {
    Flat(h.events[e]) && BornSeated(Some(link)) ==>
      |SeatSet(h.regs, e, None)| + Naming(specs, e, 0) <= h.events[e].max
  }

  /** A MINT AND THE CAP. Of an accepted mint: drafts leave every event within its cap; rows born seated leave
      one so if and only if it counts per slot or all the specs naming it fit. */
  lemma MintKeepsCapIff(h: Hall, specs: seq<RegisterCommand>, link: SaleLink, src: Source, e: Uuid)
    requires Mint(h, specs, link, src, 0).Ok? && e in h.events && Within(h, e)
    ensures var h' := Mint(h, specs, link, src, 0).value;
            e in h'.events && (Within(h', e) <==> RoomToMint(h, specs, link, e))
  {
    MintMints(h, specs, link, src, 0);
    MintCounts(h, specs, link, src, 0, e);
    if !Flat(h.events[e]) || !BornSeated(Some(link)) { MintKeepsWithin(h, specs, link, src, 0, e); }
    hide Mint, SeatSet, NewKeys, OwnRows, Extends;
  }

  lemma MintKeepsBoundIff(h: Hall, specs: seq<RegisterCommand>, link: SaleLink, src: Source)
    requires SeatBound(h) && Mint(h, specs, link, src, 0).Ok?
    ensures SeatBound(Mint(h, specs, link, src, 0).value)
       <==> forall e :: e in h.events ==> RoomToMint(h, specs, link, e)
  {
    MintMints(h, specs, link, src, 0);
    hide Within, RoomToMint, Mint, NewKeys, OwnRows, Extends;
    var h' := Mint(h, specs, link, src, 0).value;
    forall e | e in h.events ensures e in h'.events && (Within(h', e) <==> RoomToMint(h, specs, link, e)) {
      MintKeepsCapIff(h, specs, link, src, e);
    }
  }

  /** The seats a heal adds to a count. */
  function Joining(h: Hall, heal: Heal, order: Uuid, e: Uuid, slot: Option<Uuid>): (ids: set<Uuid>) {
    set id | id in h.regs && Lifts(heal, order, h.regs[id]) && h.regs[id].eventId == e
        && (slot.Some? ==> h.regs[id].slot == slot)
  }

  lemma HealCounts(h: Hall, heal: Heal, order: Uuid, e: Uuid, slot: Option<Uuid>)
    ensures |SeatSet(HealGroup(h, heal, order).regs, e, slot)| == |SeatSet(h.regs, e, slot)|
        + |Joining(h, heal, order, e, slot)|
  {
    HealSeats(h, heal, order, e, slot);
    hide SeatSet, Joining, HealGroup;
  }

  lemma HealSeats(h: Hall, heal: Heal, order: Uuid, e: Uuid, slot: Option<Uuid>)
    ensures SeatSet(HealGroup(h, heal, order).regs, e, slot) == SeatSet(h.regs, e, slot)
        + Joining(h, heal, order, e, slot)
    ensures SeatSet(h.regs, e, slot) !! Joining(h, heal, order, e, slot)
  {
    var regs := HealGroup(h, heal, order).regs;
    assert regs.Keys == h.regs.Keys;
    forall id | id in h.regs
      ensures regs[id] == Healed(heal, order, h.regs[id])
      ensures id in SeatSet(regs, e, slot) <==> id in SeatSet(h.regs, e, slot) + Joining(h, heal, order, e, slot)
    {
      HealedCounts(heal, order, h.regs[id], e, slot);
      hide Healed, Lifts, CountsFor;
    }
    hide Healed, EventsOf;
  }

  /** One row is counted after a heal if it was before or is lifted. */
  lemma HealedCounts(heal: Heal, order: Uuid, r: Reg, e: Uuid, slot: Option<Uuid>)
    ensures CountsFor(Healed(heal, order, r), e, slot)
       <==> CountsFor(r, e, slot)
            || (Lifts(heal, order, r) && r.eventId == e && (slot.Some? ==> r.slot == slot))
  {
  }

  /** The seats an event holds and the rows joining it fit, slot by slot or in all. */
  ghost predicate RoomFor(h: Hall, heal: Heal, order: Uuid, e: Uuid)
    requires e in h.events
  {
    Capped(h.events[e]) ==>
      if h.events[e].multiSlots
      then forall s: Uuid :: |SeatSet(h.regs, e, Some(s))| + |Joining(h, heal, order, e, Some(s))| <= h.events[e].max
      else |SeatSet(h.regs, e, None)| + |Joining(h, heal, order, e, None)| <= h.events[e].max
  }

  /** THE HEALS AND THE CAP. A heal goes past the seat head: it leaves an event within its cap
      if and only if there was room for all the rows it lifts. */
  lemma HealKeepsCapIff(h: Hall, heal: Heal, order: Uuid, e: Uuid)
    requires e in h.events
    ensures e in HealGroup(h, heal, order).events
    ensures Within(HealGroup(h, heal, order), e) <==> RoomFor(h, heal, order, e)
  {
    HealCounts(h, heal, order, e, None);
    forall s: Uuid ensures |SeatSet(HealGroup(h, heal, order).regs, e, Some(s))| == |SeatSet(h.regs, e, Some(s))|
        + |Joining(h, heal, order, e, Some(s))| {
      HealCounts(h, heal, order, e, Some(s));
    }
    hide SeatSet, Joining;
  }

  /** Holding and cancelling give no seat. */
  lemma HoldAndCancelKeepBound(h: Hall, order: Uuid)
    requires SeatBound(h)
    ensures SeatBound(Hold(h, order)) && SeatBound(CancelGroup(h, order))
  {
    forall e: Uuid, slot: Option<Uuid>
      ensures |SeatSet(Hold(h, order).regs, e, slot)| <= |SeatSet(h.regs, e, slot)|
      ensures |SeatSet(CancelGroup(h, order).regs, e, slot)| <= |SeatSet(h.regs, e, slot)|
    {
      SubsetSize(SeatSet(Hold(h, order).regs, e, slot), SeatSet(h.regs, e, slot));
      SubsetSize(SeatSet(CancelGroup(h, order).regs, e, slot), SeatSet(h.regs, e, slot));
    }
    hide SeatSet;
  }

  function Two(e: Uuid): (specs: seq<Spec>) {
    var one := Spec(e, None, None, "", "", None, None, None);
    [one, one]
  }

  /** Two drafts of a one-seat event, minted one after the other. */
  lemma TwoDrafts(h: Hall, e: Uuid, order: Uuid, src: Source) returns (h': Hall)
    requires h.regs == map[] && h.byBarcode == map[]
    requires e in h.events && h.events[e] == EventRow(false, true, 1, Running, 0)
    requires src.draw(0).id != src.draw(1).id && src.draw(0).barcode != src.draw(1).barcode
    ensures Mint(h, Commands(Two(e)), LinkOf(order, false), src, 0) == Ok(h') && SameSetting(h, h')
    ensures |Joining(h', PaidHeal, order, e, None)| >= 2
  {
    var specs := Commands(Two(e));
    var link := LinkOf(order, false);
    assert SeatSet(h.regs, e, None) == {};
    var h1 := RegisterCore(h, specs[0], Some(link), src.draw(0), src.at(0)).value;
    assert SeatSet(h1.regs, e, None) == {};
    h' := RegisterCore(h1, specs[1], Some(link), src.draw(1), src.at(1)).value;
    assert Mint(h', specs, link, src, 2) == Ok(h');
    assert Mint(h1, specs, link, src, 1) == Ok(h');
    var two := {src.draw(0).id, src.draw(1).id};
    assert two <= Joining(h', PaidHeal, order, e, None);
    hide Joining, RegisterCore, SeatSet;
    SubsetSize(two, Joining(h', PaidHeal, order, e, None));
  }

  /** HELD SEATS OVERSELL: an order for two attendees of a one-seat event is minted, since
      drafts are not counted, and its payment seats both. */
  lemma PaidOrderOversells(s: Seam, consumer: string, e: Uuid, order: Uuid, src: Source)
    requires s.inbox == {} && s.hall.regs == map[] && s.hall.byBarcode == map[]
    requires e in s.hall.events && s.hall.events[e] == EventRow(false, true, 1, Running, 0)
    requires src.draw(0).id != src.draw(1).id && src.draw(0).barcode != src.draw(1).barcode
    ensures var r := Confirm(s, consumer, OrderConfirmed(None, order, "", Two(e)), false, src);
            && r.Ok? && SeatBound(r.value.0.hall)
            && !SeatBound(PayOrder(r.value.0, consumer, None, order, []).0.hall)
  {
    assert FirstUnroutable(s.hall, Two(e)) == None by {
      assert forall i :: 0 <= i < 2 ==> !Unroutable(s.hall, Two(e)[i]);
    }
    assert Linked(s.hall.regs, order) == {};
    hide Linked;
    var h' := TwoDrafts(s.hall, e, order, src);
    EmptyIsBound(s.hall);
    MintKeepsBoundIff(s.hall, Commands(Two(e)), LinkOf(order, false), src);
    HealKeepsCapIff(h', PaidHeal, order, e);
    assert ClaimKey("confirmed", None, order)[0] == 'c' && ClaimKey("paid", None, order)[0] == 'p';
    hide UuidText, Mint, Two, Joining, SeatSet, Commands, HealGroup, FirstUnroutable;
  }

  lemma EmptyIsBound(h: Hall)
    requires h.regs == map[]
    ensures SeatBound(h)
  {
    assert forall e, slot :: SeatSet(h.regs, e, slot) == {};
  }

  // ── paying later ──

  /** Two halls alike but for an order's payment: h holds g's rows as the paid fact leaves them. */
  ghost predicate Twin(g: Hall, h: Hall, order: Uuid) {
    && SameSetting(g, h) && g.byBarcode == h.byBarcode && g.regs.Keys == h.regs.Keys
    && forall id :: id in g.regs ==> h.regs[id] == Healed(PaidHeal, order, g.regs[id])
  }

  lemma TwinCounts(g: Hall, h: Hall, order: Uuid, e: Uuid, slot: Option<Uuid>)
    requires Twin(g, h, order)
    ensures |SeatSet(g.regs, e, slot)| <= |SeatSet(h.regs, e, slot)|
  {
    forall id | id in SeatSet(g.regs, e, slot) ensures id in SeatSet(h.regs, e, slot) {
      assert id in g.regs && id in h.regs;
    }
    SubsetSize(SeatSet(g.regs, e, slot), SeatSet(h.regs, e, slot));
  }

  lemma TwinRows(cmd: RegisterCommand, order: Uuid, barcode: string)
    ensures NewRow(cmd, cmd.slot, Some(SaleLink(order, Sold, Open)), barcode)
         == Healed(PaidHeal, order, NewRow(cmd, cmd.slot, Some(LinkOf(order, false)), barcode))
  {
  }

  /** Where the seated twin registers, the held one does, and they stay twins. */
  lemma TwinRegister(g: Hall, h: Hall, order: Uuid, cmd: RegisterCommand, draw: Draw, now: int)
    requires Twin(g, h, order) && RegisterCore(h, cmd, Some(SaleLink(order, Sold, Open)), draw, now).Ok?
    ensures var r := RegisterCore(g, cmd, Some(LinkOf(order, false)), draw, now);
            r.Ok? && Twin(r.value, RegisterCore(h, cmd, Some(SaleLink(order, Sold, Open)), draw, now).value, order)
  {
    TwinCounts(g, h, order, cmd.eventId, cmd.slot);
    RegisterShape(h, cmd, Some(SaleLink(order, Sold, Open)), draw, now);
    var r := RegisterCore(g, cmd, Some(LinkOf(order, false)), draw, now);
    assert r.Ok? by { hide SeatSet, Healed, NewRow; }
    RegisterShape(g, cmd, Some(LinkOf(order, false)), draw, now);
    TwinRows(cmd, order, draw.barcode);
    hide RegisterCore, SeatSet, Healed, NewRow;
  }

  lemma {:induction false} TwinMint(g: Hall, h: Hall, order: Uuid, specs: seq<RegisterCommand>, src: Source, i: nat)
    requires Twin(g, h, order) && Mint(h, specs, SaleLink(order, Sold, Open), src, i).Ok?
    ensures var r := Mint(g, specs, LinkOf(order, false), src, i);
            r.Ok? && Twin(r.value, Mint(h, specs, SaleLink(order, Sold, Open), src, i).value, order)
    decreases |specs| - i
  {
    if i < |specs| {
      hide RegisterCore, Twin;
      TwinRegister(g, h, order, specs[i], src.draw(i), src.at(i));
      var g1 := RegisterCore(g, specs[i], Some(LinkOf(order, false)), src.draw(i), src.at(i)).value;
      var h1 := RegisterCore(h, specs[i], Some(SaleLink(order, Sold, Open)), src.draw(i), src.at(i)).value;
      TwinMint(g1, h1, order, specs, src, i + 1);
    }
  }

  /**
   PAYING LATER COMES TO THE SAME. Whenever an order would have fitted born open and sold, it
   is minted held as well, and the paid fact leaves the very rows it would have been born with.
   */
  lemma PaidLaterSameRows(h: Hall, order: Uuid, specs: seq<RegisterCommand>, src: Source)
    requires Linked(h.regs, order) == {}
    requires Mint(h, specs, SaleLink(order, Sold, Open), src, 0).Ok?
    ensures var held := Mint(h, specs, LinkOf(order, false), src, 0);
            && held.Ok?
            && HealGroup(held.value, PaidHeal, order).regs
                == Mint(h, specs, SaleLink(order, Sold, Open), src, 0).value.regs
  {
    assert forall id :: id in h.regs ==> id !in Linked(h.regs, order);
    assert Twin(h, h, order);
    TwinMint(h, h, order, specs, src, 0);
    hide Mint, Healed, Linked;
  }
}
