/**
 What each delivery of the sale seam answers and leaves, row by row and column by column.
 */
module SaleColumns {
  import opened Wrappers
  import opened Text
  import opened Registrations
  import opened Seats
  import opened SaleSeam
  import opened SaleLaws

  // ── the key of a delivery ──

  /** The verb, and the delivery's own id, or else the order's. */
  function KeyText(verb: string, delivery: Option<string>, order: Uuid): (k: string) {
    match delivery case Some(d) => verb + ":" + d case None => verb + ":" + UuidText(order)
  }

  lemma KeyIs(verb: string, delivery: Option<string>, order: Uuid)
    ensures ClaimKey(verb, delivery, order) == KeyText(verb, delivery, order)
  {
    hide UuidText;
  }

  /** THE VERBS NEVER CONSUME EACH OTHER'S DELIVERIES, whatever ids the host gives them. */
  lemma VerbsKeepApart(a: Option<string>, o: Uuid, b: Option<string>, p: Uuid)
    ensures ClaimKey("confirmed", a, o) != ClaimKey("paid", b, p)
    ensures ClaimKey("confirmed", a, o) != ClaimKey("cancelled", b, p)
    ensures ClaimKey("paid", a, o) != ClaimKey("cancelled", b, p)
  {
    hide UuidText;
    assert ClaimKey("confirmed", a, o)[1] == 'o' && ClaimKey("paid", b, p)[0] == 'p';
    assert ClaimKey("cancelled", b, p)[1] == 'a' && ClaimKey("confirmed", a, o)[0] == 'c';
    assert ClaimKey("paid", a, o)[0] == 'p' && ClaimKey("cancelled", b, p)[0] == 'c';
  }

  // ── the mint ──

  /** The spec's own columns; born open and free, or held as a draft to be paid. */
  ghost predicate RowOfSpec(row: Reg, spec: Spec, order: Uuid, free: bool, barcode: string) {
    && row.eventId == spec.eventId && row.slot == spec.slot && row.ticket == spec.ticket
    && row.name == spec.name && row.email == spec.email && row.phone == spec.phone
    && row.companyName == spec.companyName && row.partnerId == spec.partnerId
    && row.active && row.barcode == barcode && row.dateClosed == None
    && row.order == Some(order) && row.orderState == Some(Sale)
    && (free ==> row.state == Open && row.saleStatus == Some(Free))
    && (!free ==> row.state == Draft && row.saleStatus == Some(ToPay))
  }

  /** THE ROWS MINTED: spec k under the k-th draw, every column of its own. */
  lemma MintedColumns(s: Seam, consumer: string, cmd: OrderConfirmed, free: bool, src: Source, k: nat)
    requires Linked(s.hall.regs, cmd.order) == {} && Confirm(s, consumer, cmd, free, src).Ok?
    requires (consumer, KeyText("confirmed", cmd.delivery, cmd.order)) !in s.inbox && k < |cmd.specs|
    ensures var regs := Confirm(s, consumer, cmd, free, src).value.0.hall.regs;
            && src.draw(k).id in regs && src.draw(k).id !in s.hall.regs
            && RowOfSpec(regs[src.draw(k).id], cmd.specs[k], cmd.order, free, src.draw(k).barcode)
  {
    KeyIs("confirmed", cmd.delivery, cmd.order);
    FirstConfirmationMints(s, consumer, cmd, free, src);
    var h' := Confirm(s, consumer, cmd, free, src).value.0.hall;
    hide Confirm, Linked, KeyText, ClaimKey;
    var specs, link := Commands(cmd.specs), LinkOf(cmd.order, free);
    assert HasRow(h', specs[k], link, src.draw(k));
    DrawnIsNew(s.hall, h', src, |specs|, k);
    hide NewKeys, OwnRows, Extends;
  }

  lemma DrawnIsNew(h: Hall, h': Hall, src: Source, n: nat, k: nat)
    requires NewKeys(h, h', src, 0, n) && k < n
    ensures src.draw(k).id !in h.regs
  {
    assert src.draw(k).id in DrawnIds(src, 0, n);
  }

  /** WHAT IS ASKED OF THE REGISTER HEAD, for each spec in turn: its own columns,
      and no exemption from the lead queue. */
  lemma CommandsAre(specs: seq<Spec>, k: nat)
    requires k < |specs|
    ensures |Commands(specs)| == |specs|
    ensures var c, spec := Commands(specs)[k], specs[k];
            && c.eventId == spec.eventId && c.slot == spec.slot && c.ticket == spec.ticket
            && c.name == spec.name && c.email == spec.email && c.phone == spec.phone
            && c.companyName == spec.companyName && c.partnerId == spec.partnerId && !c.leadRuleSkip
  {
  }

  /** NEEDS A SLOT: the first spec to name none on a multi-slot event refuses the order, and its event is told. */
  lemma UnroutableIsTold(s: Seam, consumer: string, cmd: OrderConfirmed, free: bool, src: Source)
    ensures var r := Confirm(s, consumer, cmd, free, src);
            && (r == Err(NothingToMint) <==> cmd.specs == [])
            && (r.Err? && r.error.NeedsSlot? <==> exists i :: 0 <= i < |cmd.specs| && LacksSlot(s.hall, cmd.specs[i]))
            && (r.Err? && r.error.NeedsSlot? ==>
                  exists i :: 0 <= i < |cmd.specs| && FirstToLack(s.hall, cmd.specs, i)
                              && r.error.eventId == cmd.specs[i].eventId)
  {
    FirstLackIsFound(s.hall, cmd.specs);
    hide FirstUnroutable, LacksSlot, FirstToLack, Mint, HealGroup, Hold, Commands;
  }

  predicate LacksSlot(h: Hall, spec: Spec) {
    spec.eventId in h.events && h.events[spec.eventId].multiSlots && spec.slot == None
  }

  ghost predicate FirstToLack(h: Hall, specs: seq<Spec>, i: nat)
    requires i < |specs|
  {
    LacksSlot(h, specs[i]) && forall k :: 0 <= k < i ==> !LacksSlot(h, specs[k])
  }

  lemma {:induction false} FirstLackIsFound(h: Hall, specs: seq<Spec>)
    ensures FirstUnroutable(h, specs).Some? <==> exists i :: 0 <= i < |specs| && LacksSlot(h, specs[i])
    ensures FirstUnroutable(h, specs).Some? ==>
              exists i :: 0 <= i < |specs| && FirstToLack(h, specs, i)
                          && FirstUnroutable(h, specs) == Some(specs[i].eventId)
  {
    if specs != [] {
      assert LacksSlot(h, specs[0]) <==> Unroutable(h, specs[0]);
      hide LacksSlot, Unroutable;
      if LacksSlot(h, specs[0]) {
        assert FirstToLack(h, specs, 0);
      } else {
        FirstLackIsFound(h, specs[1..]);
        forall k | 0 <= k < |specs[1..]| ensures specs[1..][k] == specs[k + 1] {}
        if i :| 0 <= i < |specs[1..]| && FirstToLack(h, specs[1..], i)
                && FirstUnroutable(h, specs[1..]) == Some(specs[1..][i].eventId) {
          LaterLack(h, specs, i);
        }
        if i :| 0 <= i < |specs| && LacksSlot(h, specs[i]) { assert specs[1..][i - 1] == specs[i]; }
      }
    }
  }

  lemma LaterLack(h: Hall, specs: seq<Spec>, i: nat)
    requires specs != [] && !LacksSlot(h, specs[0]) && i < |specs[1..]| && FirstToLack(h, specs[1..], i)
    ensures FirstToLack(h, specs, i + 1)
  {
    hide LacksSlot;
    assert specs[1..][i] == specs[i + 1];
    forall k | 0 <= k < i + 1 ensures !LacksSlot(h, specs[k]) { if k > 0 { assert specs[k] == specs[1..][k - 1]; } }
  }

  // ── a delivery consumed, fresh, or refused ──

  /** An active row of the order. */
  predicate Mine(r: Reg, order: Uuid) {
    r.active && r.order == Some(order)
  }

  /** The rows a repeated confirmation writes: of a free order those not taking part, of a paid order all. */
  function Rewritten(h: Hall, order: Uuid, free: bool): (ids: set<Uuid>) {
    set id | id in h.regs && Mine(h.regs[id], order) && (free ==> h.regs[id].state in {Draft, Cancel})
  }

  lemma RewrittenIs(h: Hall, order: Uuid)
    ensures LiftedIds(h, FreeHeal, order) == Rewritten(h, order, true)
    ensures ActiveLinked(h, order) == Rewritten(h, order, false)
  {
  }

  /** A CONFIRMATION, CASE BY CASE, past its guard: consumed before,
      it changes nothing; the order's first gives it rows;
      a later one lifts a free order's rows or holds a paid order's; only a refused mint is refused, and only what
      is answered is consumed. */
  lemma ConfirmationIs(s: Seam, consumer: string, cmd: OrderConfirmed, free: bool, src: Source)
    requires cmd.specs != [] && forall i :: 0 <= i < |cmd.specs| ==> !LacksSlot(s.hall, cmd.specs[i])
    ensures var key := (consumer, KeyText("confirmed", cmd.delivery, cmd.order));
            var r := Confirm(s, consumer, cmd, free, src);
            var known := exists id :: id in s.hall.regs && s.hall.regs[id].order == Some(cmd.order);
            && (key in s.inbox ==> r == Ok((s, Outcome(true, 0, 0))))
            && (key !in s.inbox && r.Ok? ==>
                  r.value.0.inbox == s.inbox + {key} && r.value.0.booths == s.booths && !r.value.1.alreadyApplied)
            && (r.Err? ==> key !in s.inbox && !known && r.error.Refused?)
            && (key !in s.inbox && known ==>
                  r.Ok? && r.value.0.hall
                      == (if free then HealGroup(s.hall, FreeHeal, cmd.order) else Hold(s.hall, cmd.order))
                  && r.value.1 == Outcome(false, |Rewritten(s.hall, cmd.order, free)|, 0))
  {
    KeyIs("confirmed", cmd.delivery, cmd.order);
    FirstLackIsFound(s.hall, cmd.specs);
    RewrittenIs(s.hall, cmd.order);
    assert Linked(s.hall.regs, cmd.order) != {}
       <==> exists id :: id in s.hall.regs && s.hall.regs[id].order == Some(cmd.order) by {
      SomeLinked(s.hall, cmd.order);
    }
    hide Mint, HealGroup, Hold, KeyText, ClaimKey, FirstUnroutable, LacksSlot, LiftedIds, ActiveLinked, Commands,
        UuidText,
         Linked, Rewritten;
  }

  lemma SomeLinked(h: Hall, order: Uuid)
    ensures Linked(h.regs, order) != {} <==> exists id :: id in h.regs && h.regs[id].order == Some(order)
  {
    if id :| id in h.regs && h.regs[id].order == Some(order) { assert id in Linked(h.regs, order); }
  }

  // ── the group updates, row by row ──

  /** Nobody is added or lost, and only rows are written. */
  ghost predicate RowsOnly(h: Hall, h': Hall) {
    h'.regs.Keys == h.regs.Keys && SameSetting(h, h') && h'.byBarcode == h.byBarcode
  }

  /** A FREE ORDER CONFIRMED AGAIN: its active drafts and cancelled rows open and free, no other row moved. */
  lemma FreeHealRows(h: Hall, order: Uuid, id: Uuid)
    ensures RowsOnly(h, HealGroup(h, FreeHeal, order))
    ensures id in h.regs ==>
              HealGroup(h, FreeHeal, order).regs[id]
              == if Mine(h.regs[id], order) && h.regs[id].state in {Draft, Cancel}
                 then h.regs[id].(state := Open, orderState := Some(Sale), saleStatus := Some(Free)) else h.regs[id]
  {
  }

  /** A PAID ORDER: its active rows to be paid are sold, and of those the drafts and cancelled ones open as well. */
  lemma PaidHealRows(h: Hall, order: Uuid, id: Uuid)
    ensures RowsOnly(h, HealGroup(h, PaidHeal, order))
    ensures id in h.regs ==>
              HealGroup(h, PaidHeal, order).regs[id]
              == if !Mine(h.regs[id], order) || h.regs[id].saleStatus != Some(ToPay) then h.regs[id]
                 else if h.regs[id].state in {Draft, Cancel}
                 then h.regs[id].(state := Open, orderState := Some(Sale), saleStatus := Some(Sold))
                 else h.regs[id].(saleStatus := Some(Sold))
  {
  }

  /** Either heal arms the mails of each event the order has a row on, once. */
  lemma HealArmsEvents(h: Hall, heal: Heal, order: Uuid, e: Uuid)
    ensures HealGroup(h, heal, order).armed[e]
         == h.armed[e] + if exists id :: id in h.regs && h.regs[id].order == Some(order) && h.regs[id].eventId == e
                         then 1 else 0
  {
    if id :| id in h.regs && h.regs[id].order == Some(order) && h.regs[id].eventId == e {
      assert id in Linked(h.regs, order);
    }
    assert multiset(EventsOf(h.regs, order))[e] == if e in EventsOf(h.regs, order) then 1 else 0;
  }

  /** A PAID ORDER CONFIRMED AGAIN moves nobody; A CANCELLED ONE cancels its active rows and keeps what they owe. */
  lemma HeldAndCancelledRows(h: Hall, order: Uuid, id: Uuid)
    ensures RowsOnly(h, Hold(h, order)) && Hold(h, order).armed == h.armed
    ensures RowsOnly(h, CancelGroup(h, order)) && CancelGroup(h, order).armed == h.armed
    ensures id in h.regs ==>
              Hold(h, order).regs[id]
              == if Mine(h.regs[id], order) then h.regs[id].(orderState := Some(Sale), saleStatus := Some(ToPay))
                 else h.regs[id]
    ensures id in h.regs ==>
              CancelGroup(h, order).regs[id]
              == if Mine(h.regs[id], order) then h.regs[id].(state := Cancel, orderState := Some(OrderCancel))
                 else h.regs[id]
  {
  }

  /** HOW MANY WERE TOUCHED, and what else a fresh payment or cancellation leaves. */
  lemma FreshPaymentIs(s: Seam, consumer: string, delivery: Option<string>, order: Uuid, lines: seq<Uuid>)
    requires (consumer, KeyText("paid", delivery, order)) !in s.inbox
    ensures var (s', o) := PayOrder(s, consumer, delivery, order, lines);
            && s'.hall == HealGroup(s.hall, PaidHeal, order)
            && s'.inbox == s.inbox + {(consumer, KeyText("paid", delivery, order))}
            && !o.alreadyApplied
            && o.touched
               == |set id | id in s.hall.regs && Mine(s.hall.regs[id], order)
                   && s.hall.regs[id].saleStatus == Some(ToPay)
                           && s.hall.regs[id].state in {Draft, Cancel}|
            && o.latched == |set id | id in s.booths && !s.booths[id].paid && s.booths[id].line.Some?
                                      && s.booths[id].line.value in lines|
  {
    KeyIs("paid", delivery, order);
    assert LiftedIds(s.hall, PaidHeal, order)
        == set id | id in s.hall.regs && Mine(s.hall.regs[id], order) && s.hall.regs[id].saleStatus == Some(ToPay)
                    && s.hall.regs[id].state in {Draft, Cancel};
    assert ToLatch(s.booths, lines)
        == set id | id in s.booths && !s.booths[id].paid && s.booths[id].line.Some? && s.booths[id].line.value in lines;
    hide HealGroup, Latch, KeyText, ClaimKey, LiftedIds, ToLatch;
  }

  lemma FreshCancellationIs(s: Seam, consumer: string, delivery: Option<string>, order: Uuid)
    requires (consumer, KeyText("cancelled", delivery, order)) !in s.inbox
    ensures var (s', o) := CancelOrder(s, consumer, delivery, order);
            && s' == Seam(CancelGroup(s.hall, order), s.booths, s.inbox
                + {(consumer, KeyText("cancelled", delivery, order))})
            && o == Outcome(false, |set id | id in s.hall.regs && Mine(s.hall.regs[id], order)|, 0)
  {
    KeyIs("cancelled", delivery, order);
    assert ActiveLinked(s.hall, order) == set id | id in s.hall.regs && Mine(s.hall.regs[id], order);
    hide CancelGroup, KeyText, ClaimKey, ActiveLinked;
  }
}
