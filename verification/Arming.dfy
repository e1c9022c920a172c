/**
 Who wakes the engines: over every verb and delivery that can make a registration eligible, when
 the event's mail rows are re-opened and when its lead queue row is.
 */
module Arming {
  import opened Wrappers
  import opened Text
  import opened Registrations
  import opened Seats
  import opened SaleSeam
  import opened Desk
  import L = LeadModel
  import R = LeadRules
  import M = MailModel
  import P = MailPasses
  import SaleLaws

  /** The row takes part now and did not before. */
  ghost predicate NewlySeated(h: Hall, h': Hall, id: Uuid) {
    id in h'.regs && HoldsSeat(h'.regs[id]) && !(id in h.regs && HoldsSeat(h.regs[id]))
  }

  ghost predicate ArmedBy(h: Hall, h': Hall, e: Uuid) {
    h'.armed[e] > h.armed[e]
  }

  // ── the mails ──

  lemma RegisterArms(h: Hall, cmd: RegisterCommand, link: Option<SaleLink>, draw: Draw, now: int, id: Uuid)
    requires RegisterCore(h, cmd, link, draw, now).Ok?
    ensures var h' := RegisterCore(h, cmd, link, draw, now).value;
            && (forall e :: h'.armed[e] >= h.armed[e])
            && (id in h.regs ==> id in h'.regs && h'.regs[id] == h.regs[id])
            && (id in h'.regs && id !in h.regs ==>
                  h'.regs[id].eventId == cmd.eventId && h'.regs[id].active
                  && (h'.regs[id].state == if link.Some? then link.value.born else Open)
                  && (ArmedBy(h, h', cmd.eventId) <==> h'.regs[id].state == Open))
  {
    hide SeatSet, Full, TicketCheck;
  }

  /** A minted row is born as its link says, and born open it has armed its event. */
  lemma {:induction false} MintArms(h: Hall, specs: seq<RegisterCommand>, link: SaleLink, src: Source, i: nat, id: Uuid)
    requires Mint(h, specs, link, src, i).Ok?
    ensures var h' := Mint(h, specs, link, src, i).value;
            && (forall e :: h'.armed[e] >= h.armed[e])
            && (id in h.regs ==> id in h'.regs && h'.regs[id] == h.regs[id])
            && (id in h'.regs && id !in h.regs ==>
                  && h'.regs[id].active && h'.regs[id].state == link.born
                  && (link.born == Open ==> ArmedBy(h, h', h'.regs[id].eventId)))
    decreases |specs| - i
  {
    if i < |specs| {
      RegisterArms(h, specs[i], Some(link), src.draw(i), src.at(i), id);
      var h1 := RegisterCore(h, specs[i], Some(link), src.draw(i), src.at(i)).value;
      hide RegisterCore;
      MintArms(h1, specs, link, src, i + 1, id);
    }
  }

  lemma TransitionArms(h: Hall, id: Uuid, to: RegState, now: int, x: Uuid)
    requires Transition(h, id, to, now).Ok? && NewlySeated(h, Transition(h, id, to, now).value, x)
    ensures var h' := Transition(h, id, to, now).value;
            && x == id && h.regs[id].active && (h.regs[id].state == Draft || h.regs[id].state == Cancel)
            && h'.regs[id].state == to && h'.regs[id].eventId == h.regs[id].eventId
            && (ArmedBy(h, h', h'.regs[id].eventId) <==> to == Open)
  {
    hide SeatSet, Full;
  }

  lemma HealArms(h: Hall, heal: Heal, order: Uuid, x: Uuid)
    requires NewlySeated(h, HealGroup(h, heal, order), x)
    ensures var h' := HealGroup(h, heal, order);
            x in h.regs && h'.regs[x].state == Open && h'.regs[x].eventId == h.regs[x].eventId
            && h.regs[x].order == Some(order) && ArmedBy(h, h', h'.regs[x].eventId)
  {
    assert x in Linked(h.regs, order);
    assert h.regs[x].eventId in EventsOf(h.regs, order);
    assert multiset(EventsOf(h.regs, order))[h.regs[x].eventId] == 1;
  }

  lemma GroupSeatsNobody(h: Hall, order: Uuid, x: Uuid)
    ensures !NewlySeated(h, Hold(h, order), x) && !NewlySeated(h, CancelGroup(h, order), x)
  {
  }

  /** A scan closes an open row: it seats nobody who had no seat. */
  lemma ScanSeatsNobody(h: Hall, a: Action, x: Uuid)
    requires a.Admit?
    ensures !NewlySeated(h, Act(h, a), x)
  {
    hide SeatSet, Full, Trim, FindByBarcode;
  }

  /**
   THE MAILS ARE ARMED BY WHOEVER ENTERS OPEN. Whatever the verb or delivery, a registration that
   newly takes a seat arms its event's mails in that very step if and only if it takes it as open.
   */
  lemma EntersOpenIffArmed(h: Hall, a: Action, id: Uuid)
    requires NewlySeated(h, Act(h, a), id)
    ensures ArmedBy(h, Act(h, a), Act(h, a).regs[id].eventId) <==> Act(h, a).regs[id].state == Open
  {
    hide Transition, RegisterCore, Mint, HealGroup, Hold, CancelGroup, Scan;
    match a
    case Admit(_, _, _, _) => ScanSeatsNobody(h, a, id);
    case RegisterNew(cmd, draw, now) =>
      if RegisterCore(h, cmd, None, draw, now).Ok? { RegisterArms(h, cmd, None, draw, now, id); }
    case Verb(x, to, now) =>
      if Transition(h, x, to, now).Ok? { TransitionArms(h, x, to, now, id); }
    case ConfirmOrder(specs, order, free, src) =>
      if Mint(h, specs, LinkOf(order, free), src, 0).Ok? { MintArms(h, specs, LinkOf(order, free), src, 0, id); }
    case HealOrder(heal, order) => HealArms(h, heal, order, id);
    case HoldOrder(order) => GroupSeatsNobody(h, order, id);
    case CancelOrderGroup(order) => GroupSeatsNobody(h, order, id);
  }

  /** What a mail run reads of the event's registrations. */
  ghost predicate Reflects(rows: seq<M.Attendee>, h: Hall, e: Uuid) {
    forall id :: id in h.regs && h.regs[id].eventId == e ==>
      exists a :: a in rows && a.id == id && a.state == h.regs[id].state && a.active == h.regs[id].active
  }

  /** The event's mail row after a step: an arm re-opens the rows of the subscription kind only. */
  ghost function MailAfter(j: M.Job, rows: seq<M.Attendee>, h: Hall, h': Hall, e: Uuid, now: int): (r: M.Job) {
    var seated := j.(attendees := rows);
    if j.plan.afterSub && ArmedBy(h, h', e) then seated.(scheduledAt := now, done := false) else seated
  }

  /**
   THE LATE REGISTRANT. A completed mail row of a live event becomes claimable by the step that newly
   seats somebody without a settled receipt if and only if it is of the subscription kind and they enter as
   open. Of any other kind, or when they go straight to done, it stays unclaimed whatever the clock.
   */
  lemma LateRegistrantReopensIff(h: Hall, a: Action, id: Uuid, j: M.Job, rows: seq<M.Attendee>, now: int, later: int)
    requires NewlySeated(h, Act(h, a), id) && Reflects(rows, Act(h, a), Act(h, a).regs[id].eventId)
    requires j.done && !j.plan.cancelled && now <= later && !M.Settled(j.receipts, id)
    ensures var h' := Act(h, a);
            P.Claimable(MailAfter(j, rows, h, h', h'.regs[id].eventId, now), later)
            <==> j.plan.afterSub && h'.regs[id].state == Open
  {
    EntersOpenIffArmed(h, a, id);
    var h' := Act(h, a);
    hide Act;
    var b :| b in rows && b.id == id && b.state == h'.regs[id].state && b.active == h'.regs[id].active;
    var i :| 0 <= i < |rows| && rows[i] == b;
    assert M.Eligible(rows[i]) && !M.Settled(j.receipts, rows[i].id);
  }

  // ── the lead queue ──

  type Axis = R.RuleRow -> bool

  const CREATE_OR_CONFIRM: Axis := (r: R.RuleRow) => r.onCreate || r.onConfirm

  function AxisOf(to: RegState): (x: Axis) {
    if to == Done then (r: R.RuleRow) => r.onDone else (r: R.RuleRow) => r.onConfirm
  }

  /** Some active rule of the event listens to the axis. */
  ghost predicate Listens(rules: seq<R.RuleRow>, e: Uuid, axis: Axis) {
    exists r :: r in rules && L.Applies(r.rule, e) && axis(r)
  }

  ghost function ArmIf(q: seq<L.Request>, wanted: bool, e: Uuid, places: Uuid -> nat): (r: seq<L.Request>) {
    if wanted then R.ArmOne(q, e, places(e)) else q
  }

  /** A register arms the create and confirm axes together, held drafts included. */
  ghost predicate RegisterWants(rules: seq<R.RuleRow>, cmd: RegisterCommand) {
    !cmd.leadRuleSkip && Listens(rules, cmd.eventId, CREATE_OR_CONFIRM)
  }

  ghost predicate VerbWants(rules: seq<R.RuleRow>, row: Reg, to: RegState) {
    row.active && (to == Open || to == Done) && row.state != to && Listens(rules, row.eventId, AxisOf(to))
  }

  ghost function MintQueue(q: seq<L.Request>, rules: seq<R.RuleRow>, specs: seq<RegisterCommand>, places: Uuid -> nat)
    : (r: seq<L.Request>)
    decreases |specs|
  {
    if specs == [] then q
    else MintQueue(ArmIf(q, RegisterWants(rules, specs[0]), specs[0].eventId, places), rules, specs[1..], places)
  }

  /** The lead queue after a step: neither heal writes it. */
  ghost function QueueAfter(q: seq<L.Request>, rules: seq<R.RuleRow>, places: Uuid -> nat, h: Hall, a: Action)
    : (r: seq<L.Request>)
  {
    match a
    case Admit(barcode, e, now, later) =>
      (match Scan(h, barcode, e, now, later)
       case Err(_) => q
       case Ok((_, id)) =>
         if id in h.regs then ArmIf(q, VerbWants(rules, h.regs[id], Done), h.regs[id].eventId, places) else q)
    case RegisterNew(cmd, draw, now) =>
      if RegisterCore(h, cmd, None, draw, now).Ok? then ArmIf(q, RegisterWants(rules, cmd), cmd.eventId, places) else q
    case Verb(id, to, now) =>
      if id in h.regs && Transition(h, id, to, now).Ok?
      then ArmIf(q, VerbWants(rules, h.regs[id], to), h.regs[id].eventId, places) else q
    case ConfirmOrder(specs, order, free, src) =>
      if Mint(h, specs, LinkOf(order, free), src, 0).Ok? then MintQueue(q, rules, specs, places) else q
    case _ => q
  }

  ghost predicate SomeSpecWants(rules: seq<R.RuleRow>, specs: seq<RegisterCommand>, e: Uuid) {
    exists i :: 0 <= i < |specs| && specs[i].eventId == e && RegisterWants(rules, specs[i])
  }

  /** An active rule with no scope or the event's. */
  predicate IsOf(r: R.RuleRow, e: Uuid) {
    r.rule.active && (r.rule.scope == None || r.rule.scope == Some(e))
  }

  /** Some such rule was told to wake on creation or on confirmation. */
  ghost predicate WakesOnRegister(rules: seq<R.RuleRow>, e: Uuid) {
    exists r :: r in rules && IsOf(r, e) && (r.onCreate || r.onConfirm)
  }

  /** Some such rule was told to wake on the state entered. */
  ghost predicate WakesOnState(rules: seq<R.RuleRow>, e: Uuid, to: RegState) {
    exists r :: r in rules && IsOf(r, e)
                && ((to == Open && r.onConfirm) || (to == Done && r.onDone))
  }

  /** Which steps queue the event, when it is not queued already. */
  ghost predicate Queues(rules: seq<R.RuleRow>, h: Hall, a: Action, e: Uuid) {
    match a
    case Admit(barcode, _, _, _) =>
      var id := FindByBarcode(h, Trim(barcode));
      id.Some? && h.regs[id.value].eventId == e && WakesOnState(rules, e, Done)
    case RegisterNew(cmd, _, _) => cmd.eventId == e && !cmd.leadRuleSkip && WakesOnRegister(rules, e)
    case Verb(id, to, _) =>
      id in h.regs && h.regs[id].eventId == e && h.regs[id].active && h.regs[id].state != to
          && WakesOnState(rules, e, to)
    case ConfirmOrder(specs, _, _, _) =>
      (exists i :: 0 <= i < |specs| && specs[i].eventId == e && !specs[i].leadRuleSkip) && WakesOnRegister(rules, e)
    case _ => false
  }

  lemma WantsAreWakes(rules: seq<R.RuleRow>, e: Uuid, to: RegState)
    ensures Listens(rules, e, CREATE_OR_CONFIRM) <==> WakesOnRegister(rules, e)
    ensures (to == Open || to == Done) && Listens(rules, e, AxisOf(to)) <==> WakesOnState(rules, e, to)
  {
    if r :| r in rules && IsOf(r, e) && (r.onCreate || r.onConfirm) {
      assert L.Applies(r.rule, e) && CREATE_OR_CONFIRM(r);
    }
    if r :| r in rules && IsOf(r, e)
            && ((to == Open && r.onConfirm) || (to == Done && r.onDone)) {
      assert L.Applies(r.rule, e) && AxisOf(to)(r);
    }
  }

  lemma WantsQueue(rules: seq<R.RuleRow>, h: Hall, a: Action, e: Uuid)
    ensures Queues(rules, h, a, e)
       <==> match a
            case Admit(barcode, _, _, _) =>
              var id := FindByBarcode(h, Trim(barcode));
              id.Some? && h.regs[id.value].eventId == e && Listens(rules, e, AxisOf(Done))
            case RegisterNew(cmd, _, _) => cmd.eventId == e && RegisterWants(rules, cmd)
            case Verb(id, to, _) => id in h.regs && h.regs[id].eventId == e && VerbWants(rules, h.regs[id], to)
            case ConfirmOrder(specs, _, _, _) => SomeSpecWants(rules, specs, e)
            case _ => false
  {
    WantsAreWakes(rules, e, if a.Verb? then a.to else Done);
    hide Listens, WakesOnRegister, WakesOnState;
  }

  lemma ArmIfQueues(q: seq<L.Request>, wanted: bool, e: Uuid, places: Uuid -> nat, x: Uuid)
    ensures R.ArmedFor(ArmIf(q, wanted, e, places), x) <==> R.ArmedFor(q, x) || (wanted && x == e)
  {
    R.ArmOneArms(q, e, places(e));
    if x != e && R.ArmedFor(R.ArmOne(q, e, places(e)), x) { R.ArmOneArmsOnly(q, e, places(e), x); }
    hide R.ArmedFor, R.ArmOne;
  }

  lemma {:induction false} MintQueues(q: seq<L.Request>, rules: seq<R.RuleRow>, specs: seq<RegisterCommand>,
                                      places: Uuid -> nat, e: Uuid)
    ensures R.ArmedFor(MintQueue(q, rules, specs, places), e)
       <==> R.ArmedFor(q, e) || SomeSpecWants(rules, specs, e)
    decreases |specs|
  {
    if specs != [] {
      hide R.ArmedFor, ArmIf, RegisterWants;
      var q1 := ArmIf(q, RegisterWants(rules, specs[0]), specs[0].eventId, places);
      ArmIfQueues(q, RegisterWants(rules, specs[0]), specs[0].eventId, places, e);
      MintQueues(q1, rules, specs[1..], places, e);
      assert specs == [specs[0]] + specs[1..];
      if i :| 0 <= i < |specs| && specs[i].eventId == e && RegisterWants(rules, specs[i]) {
        if i > 0 { assert specs[1..][i - 1] == specs[i]; }
      }
      if i :| 0 <= i < |specs[1..]| && specs[1..][i].eventId == e && RegisterWants(rules, specs[1..][i]) {
        assert specs[1..][i] == specs[i + 1];
      }
    }
  }

  /** The step was not refused. */
  ghost predicate GoesThrough(h: Hall, a: Action) {
    match a
    case Admit(barcode, e, now, later) => Scan(h, barcode, e, now, later).Ok?
    case RegisterNew(cmd, draw, now) => RegisterCore(h, cmd, None, draw, now).Ok?
    case Verb(id, to, now) => Transition(h, id, to, now).Ok?
    case ConfirmOrder(specs, order, free, src) => Mint(h, specs, LinkOf(order, free), src, 0).Ok?
    case _ => true
  }

  /**
   WHEN A STEP QUEUES AN EVENT FOR LEADS. After any verb or delivery an event is queued if and only if it was
   before, or the step went through and: a register, or one of an order's, not exempt, met an active rule of the
   event waking on creation or confirmation; or a verb or a scan moved an active row of it into a state one wakes
   on. A heal queues nothing.
   */
  lemma StepQueuesIff(q: seq<L.Request>, rules: seq<R.RuleRow>, places: Uuid -> nat, h: Hall, a: Action, e: Uuid)
    ensures R.ArmedFor(QueueAfter(q, rules, places, h, a), e)
       <==> R.ArmedFor(q, e) || (GoesThrough(h, a) && Queues(rules, h, a, e))
  {
    WantsQueue(rules, h, a, e);
    hide Queues, R.ArmedFor, ArmIf, RegisterWants, VerbWants, MintQueue, SomeSpecWants, RegisterCore, Transition,
        Mint, Trim;
    match a
    case Admit(barcode, ev, now, later) =>
      ScanSucceedsIff(h, barcode, ev, now, later);
      hide Scan, ClosesOnly;
      if Scan(h, barcode, ev, now, later).Ok? {
        var id := Scan(h, barcode, ev, now, later).value.1;
        OpenRowWants(rules, h.regs[id]);
        ArmIfQueues(q, VerbWants(rules, h.regs[id], Done), h.regs[id].eventId, places, e);
      }
    case RegisterNew(cmd, draw, now) => ArmIfQueues(q, RegisterWants(rules, cmd), cmd.eventId, places, e);
    case Verb(x, to, now) =>
      UnknownNeverMoves(h, x, to, now);
      if x in h.regs { ArmIfQueues(q, VerbWants(rules, h.regs[x], to), h.regs[x].eventId, places, e); }
    case ConfirmOrder(specs, order, free, src) => MintQueues(q, rules, specs, places, e);
    case _ =>
  }

  lemma OpenRowWants(rules: seq<R.RuleRow>, row: Reg)
    requires row.active && row.state == Open
    ensures VerbWants(rules, row, Done) <==> Listens(rules, row.eventId, AxisOf(Done))
  {
    hide Listens;
  }

  lemma UnknownNeverMoves(h: Hall, id: Uuid, to: RegState, now: int)
    ensures Transition(h, id, to, now).Ok? ==> id in h.regs
  {
    hide SeatSet, Full;
  }

  /** A NEWCOMER AND THE QUEUE: whoever newly takes part came by a step that went through, and its event is queued
      exactly as that step says; by a heal, never. */
  lemma NewcomerQueuesIff(q: seq<L.Request>, rules: seq<R.RuleRow>, places: Uuid -> nat, h: Hall, a: Action, id: Uuid)
    requires NewlySeated(h, Act(h, a), id)
    ensures var e := Act(h, a).regs[id].eventId;
            && (R.ArmedFor(QueueAfter(q, rules, places, h, a), e) <==> R.ArmedFor(q, e) || Queues(rules, h, a, e))
            && (a.HealOrder? ==> QueueAfter(q, rules, places, h, a) == q)
  {
    NobodyNew(h, id);
    assert GoesThrough(h, a) by {
      hide Scan, RegisterCore, Transition, Mint, NewlySeated, HealGroup, Hold, CancelGroup;
    }
    var e := Act(h, a).regs[id].eventId;
    hide Act, NewlySeated, GoesThrough, Queues, R.ArmedFor;
    StepQueuesIff(q, rules, places, h, a, e);
  }

  lemma NobodyNew(h: Hall, id: Uuid)
    ensures !NewlySeated(h, h, id)
  {
  }

  lemma PaymentSeats(h: Hall, order: Uuid, id: Uuid)
    requires id in h.regs && h.regs[id].order == Some(order) && h.regs[id].saleStatus == Some(ToPay)
    requires h.regs[id].state == Draft && h.regs[id].active
    ensures !HoldsSeat(h.regs[id]) && NewlySeated(h, HealGroup(h, PaidHeal, order), id)
    ensures HealGroup(h, PaidHeal, order).regs[id].eventId == h.regs[id].eventId
  {
    hide EventsOf;
  }

  lemma MintedDraft(h: Hall, specs: seq<RegisterCommand>, order: Uuid, src: Source, k: nat)
    requires Mint(h, specs, LinkOf(order, false), src, 0).Ok? && k < |specs|
    ensures var regs := Mint(h, specs, LinkOf(order, false), src, 0).value.regs;
            var id := src.draw(k).id;
            && id in regs && regs[id].order == Some(order) && regs[id].saleStatus == Some(ToPay)
            && regs[id].state == Draft && regs[id].active && regs[id].eventId == specs[k].eventId
  {
    var minted := Mint(h, specs, LinkOf(order, false), src, 0).value;
    SaleLaws.MintMints(h, specs, LinkOf(order, false), src, 0);
    hide Mint;
    assert SaleLaws.HasRow(minted, specs[k], LinkOf(order, false), src.draw(k));
    hide SaleLaws.OwnRows, SaleLaws.NewKeys, SaleLaws.Extends;
  }

  lemma ConfirmQueues(h: Hall, specs: seq<RegisterCommand>, order: Uuid, free: bool, src: Source, k: nat,
                      rules: seq<R.RuleRow>, places: Uuid -> nat, q: seq<L.Request>)
    requires Mint(h, specs, LinkOf(order, free), src, 0).Ok? && k < |specs| && RegisterWants(rules, specs[k])
    ensures R.ArmedFor(QueueAfter(q, rules, places, h, ConfirmOrder(specs, order, free, src)), specs[k].eventId)
  {
    MintQueues(q, rules, specs, places, specs[k].eventId);
    hide Mint, MintQueue, R.ArmedFor, RegisterWants;
  }

  /**
   PAID LATE, NEVER QUEUED. A paid order's drafts queue their event when they are minted, before anybody is
   eligible; once a walk has found nobody and the row is done, the payment seats them and queues nothing,
   whichever axes the rules listen to.
   */
  lemma PaidLateNeverQueued(h: Hall, specs: seq<RegisterCommand>, order: Uuid, src: Source, k: nat,
                            rules: seq<R.RuleRow>, places: Uuid -> nat, q: seq<L.Request>, walked: seq<L.Request>)
    requires Mint(h, specs, LinkOf(order, false), src, 0).Ok?
    requires k < |specs| && RegisterWants(rules, specs[k]) && !R.ArmedFor(walked, specs[k].eventId)
    ensures var confirm := ConfirmOrder(specs, order, false, src);
            var pay := HealOrder(PaidHeal, order);
            var minted := Act(h, confirm);
            var id := src.draw(k).id;
            && R.ArmedFor(QueueAfter(q, rules, places, h, confirm), specs[k].eventId)
            && id in minted.regs && !HoldsSeat(minted.regs[id])
            && NewlySeated(minted, Act(minted, pay), id) && Act(minted, pay).regs[id].eventId == specs[k].eventId
            && QueueAfter(walked, rules, places, minted, pay) == walked
  {
    hide Mint, R.ArmedFor, RegisterWants, HealGroup, NewlySeated, HoldsSeat, MintQueue;
    MintedDraft(h, specs, order, src, k);
    ConfirmQueues(h, specs, order, false, src, k, rules, places, q);
    PaymentSeats(Mint(h, specs, LinkOf(order, false), src, 0).value, order, src.draw(k).id);
  }
}
