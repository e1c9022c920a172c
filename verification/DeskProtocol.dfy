/**
 Any number of desks at once, among all the other verbs: a scan looks its row up, judges what it
 read against the event, and writes, in three transactions, and anything may happen between them.
 */
module DeskProtocol {
  import opened Wrappers
  import opened Text
  import opened Registrations
  import opened Seats
  import opened Desk

  /** Where a desk is; `looked` is the step at which it read the row. */
  datatype Pc = Away
              | Looked(looked: nat, id: Uuid, row: Reg)
              | Decided(looked: nat, id: Uuid)

  /** A scan that succeeded: which row, at which desk, read and written when. */
  datatype Admission = Admission(id: Uuid, desk: nat, looked: nat, wrote: nat)

  datatype System = System(hall: Hall, desks: map<nat, Pc>, admits: seq<Admission>, steps: nat)

  /** One transaction of one desk; a scan broken off; another verb; or the events edited at will. */
  datatype Move =
    | Look(p: nat, barcode: string)
    | Judge(p: nat, eventId: Uuid, now: int)
    | Write(p: nat, later: int)
    | Leave(p: nat)
    | Other(a: Action)
    | EditEvents(events: map<Uuid, EventRow>)

  function At(s: System, p: nat): (pc: Pc) {
    if p in s.desks then s.desks[p] else Away
  }

  ghost predicate Enabled(s: System, m: Move) {
    match m
    case Look(p, _) => At(s, p) == Away
    case Judge(p, _, _) => At(s, p).Looked?
    case Write(p, _) => At(s, p).Decided?
    case Leave(_) => true
    case Other(a) => !a.Admit?
    case EditEvents(_) => true
  }

  /** Why a row as read is not admitted to an event as read, or nothing. */
  function Refusal(row: Reg, events: map<Uuid, EventRow>, eventId: Uuid, now: int): (e: Option<DeskError>) {
    if row.state == Cancel then Some(DeskCanceledRegistration)
    else if row.state == Draft then Some(DeskUnconfirmedRegistration)
    else if eventId !in events then Some(DeskEventNotFound)
    else if !Ongoing(events[eventId], now) then Some(DeskNotOngoingEvent)
    else if row.eventId != eventId then Some(DeskNeedManualConfirmation)
    else if row.state == Done then Some(DeskAlreadyRegistered)
    else None
  }

  function Mover(m: Move): (p: Option<nat>) {
    match m
    case Look(p, _) => Some(p)
    case Judge(p, _, _) => Some(p)
    case Write(p, _) => Some(p)
    case Leave(p) => Some(p)
    case _ => None
  }

  ghost function NextPc(s: System, m: Move): (pc: Pc)
    requires Enabled(s, m)
  {
    match m
    case Look(p, barcode) =>
      (match FindByBarcode(s.hall, Trim(barcode))
       case None => Away
       case Some(id) => if s.hall.regs[id].active then Looked(s.steps, id, s.hall.regs[id]) else Away)
    case Judge(p, eventId, now) =>
      var pc := At(s, p);
      if Refusal(pc.row, s.hall.events, eventId, now) == None then Decided(pc.looked, pc.id) else Away
    case _ => Away
  }

  ghost function NextHall(s: System, m: Move): (h: Hall)
    requires Enabled(s, m)
  {
    match m
    case Write(p, later) =>
      (match Transition(s.hall, At(s, p).id, Done, later) case Err(_) => s.hall case Ok(h) => h)
    case Other(a) => Act(s.hall, a)
    case EditEvents(events) => s.hall.(events := events)
    case _ => s.hall
  }

  /** Has the desk's write just gone through? */
  ghost predicate Admits(s: System, m: Move) {
    m.Write? && At(s, m.p).Decided? && Transition(s.hall, At(s, m.p).id, Done, m.later).Ok?
  }

  ghost function Next(s: System, m: Move): (r: System)
    requires Enabled(s, m)
  {
    System(NextHall(s, m),
           if Mover(m).Some? then s.desks[Mover(m).value := NextPc(s, m)] else s.desks,
           if Admits(s, m) then s.admits + [Admission(At(s, m.p).id, m.p, At(s, m.p).looked, s.steps)] else s.admits,
           s.steps + 1)
  }

  ghost predicate IsRun(states: seq<System>, moves: seq<Move>) {
    && |states| == |moves| + 1
    && Indexed(states[0].hall) && states[0].desks == map[] && states[0].admits == [] && states[0].steps == 0
    && forall i :: 0 <= i < |moves| ==> Enabled(states[i], moves[i]) && states[i + 1] == Next(states[i], moves[i])
  }

  lemma StepOf(states: seq<System>, moves: seq<Move>, i: nat)
    requires IsRun(states, moves) && 0 < i < |states|
    ensures |states| == |moves| + 1 && Enabled(states[i - 1], moves[i - 1])
    ensures states[i] == Next(states[i - 1], moves[i - 1]) && states[i].steps == states[i - 1].steps + 1
  {
    assert states[i - 1 + 1] == Next(states[i - 1], moves[i - 1]);
    hide NextHall, NextPc, Indexed, Admits;
  }

  /** With nothing in between, the three transactions are the scan. */
  lemma UndisturbedIsScan(h: Hall, barcode: string, eventId: Uuid, now: int, later: int)
    ensures var id := FindByBarcode(h, Trim(barcode));
            Scan(h, barcode, eventId, now, later)
            == if id == None || !h.regs[id.value].active then Err(DeskInvalidTicket)
               else if Refusal(h.regs[id.value], h.events, eventId, now).Some?
               then Err(Refusal(h.regs[id.value], h.events, eventId, now).value)
               else match Transition(h, id.value, Done, later)
                    case Err(e) => Err(DeskSeat(e))
                    case Ok(h') => Ok((h', id.value))
  {
    hide Transition, Trim, FindByBarcode;
  }

  /** A desk's three moves in a row, as far as they go. */
  ghost function SoloScan(s: System, p: nat, barcode: string, eventId: Uuid, now: int, later: int): (r: System)
    requires At(s, p) == Away
  {
    var s1 := Next(s, Look(p, barcode));
    if At(s1, p).Away? then s1
    else
      var s2 := Next(s1, Judge(p, eventId, now));
      if At(s2, p).Away? then s2 else Next(s2, Write(p, later))
  }

  /** UNDISTURBED, THE PROTOCOL IS THE SCAN: a desk's moves in a row leave the hall the scan leaves, record an
      admission of the scanned row exactly when the scan succeeds, and the desk is away again. */
  lemma SoloIsScan(s: System, p: nat, barcode: string, eventId: Uuid, now: int, later: int)
    requires At(s, p) == Away
    ensures var r, end := Scan(s.hall, barcode, eventId, now, later), SoloScan(s, p, barcode, eventId, now, later);
            && At(end, p) == Away
            && match r
               case Err(_) => end.hall == s.hall && end.admits == s.admits
               case Ok((h, id)) =>
                 end.hall == h && |end.admits| == |s.admits| + 1 && end.admits[..|s.admits|] == s.admits
                 && end.admits[|s.admits|].id == id && end.admits[|s.admits|].desk == p
  {
    UndisturbedIsScan(s.hall, barcode, eventId, now, later);
    hide Scan, Transition, Trim, FindByBarcode, Refusal;
  }

  // ── what a step does to one row ──

  ghost predicate OpensBy(s: System, s': System, id: Uuid) {
    !IsOpen(s.hall, id) && IsOpen(s'.hall, id)
  }

  ghost predicate ClosesBy(s: System, s': System, id: Uuid) {
    IsOpen(s.hall, id) && !IsOpen(s'.hall, id)
  }

  lemma MoveKeepsRows(s: System, m: Move)
    requires Indexed(s.hall) && Enabled(s, m)
    ensures Indexed(Next(s, m).hall) && RowsStay(s.hall, Next(s, m).hall)
  {
    hide Indexed, RowsStay, Act, Transition;
    match m
    case Write(p, later) =>
      StayTransitive(s.hall, s.hall, s.hall);
      if Transition(s.hall, At(s, p).id, Done, later).Ok? { TransitionKeepsIndex(s.hall, At(s, p).id, Done, later); }
    case Other(a) => ActKeepsIndex(s.hall, a);
    case EditEvents(events) => GroupUpdateKeepsIndex(s.hall, s.hall.(events := events));
    case _ => StayTransitive(s.hall, s.hall, s.hall);
  }

  /** A write that goes through leaves its own row done and every other as it was; one that does not, or any
      other transaction of a desk, moves nobody. */
  lemma DeskMoves(s: System, m: Move)
    requires Enabled(s, m) && Mover(m).Some?
    ensures if Admits(s, m)
            then var id := At(s, m.p).id;
                 && id in s.hall.regs && id in Next(s, m).hall.regs && Next(s, m).hall.regs[id].state == Done
                 && forall x :: x != id ==> (IsOpen(Next(s, m).hall, x) <==> IsOpen(s.hall, x))
            else Next(s, m).hall == s.hall
  {
    hide SeatSet, Full, Trim, FindByBarcode;
  }

  lemma {:induction false} StepsAndRows(states: seq<System>, moves: seq<Move>, i: nat)
    requires IsRun(states, moves) && i < |states|
    ensures states[i].steps == i && Indexed(states[i].hall)
  {
    hide Next, Enabled, Indexed;
    if i > 0 {
      StepsAndRows(states, moves, i - 1);
      StepOf(states, moves, i);
      MoveKeepsRows(states[i - 1], moves[i - 1]);
    }
  }

  lemma {:induction false} RowsStayThrough(states: seq<System>, moves: seq<Move>, i: nat, j: nat)
    requires IsRun(states, moves) && i <= j < |states|
    ensures RowsStay(states[i].hall, states[j].hall)
    decreases j
  {
    hide IsRun, Next, Enabled, Indexed, RowsStay;
    StayTransitive(states[i].hall, states[i].hall, states[i].hall);
    if i < j {
      RowsStayThrough(states, moves, i, j - 1);
      StepOf(states, moves, j);
      StepsAndRows(states, moves, j - 1);
      MoveKeepsRows(states[j - 1], moves[j - 1]);
      StayTransitive(states[i].hall, states[j - 1].hall, states[j].hall);
    }
  }

  // ── what a desk holds, and what it wrote ──

  /** Desk p found this very row by its look at step f. */
  ghost predicate WasLooked(states: seq<System>, moves: seq<Move>, p: nat, f: nat, id: Uuid)
    requires IsRun(states, moves)
  {
    && f < |moves| && moves[f].Look? && moves[f].p == p
    && FindByBarcode(states[f].hall, Trim(moves[f].barcode)) == Some(id)
  }

  ghost predicate PcTold(states: seq<System>, moves: seq<Move>, p: nat, pc: Pc, i: nat)
    requires IsRun(states, moves)
  {
    !pc.Away? ==>
      && pc.looked < i && WasLooked(states, moves, p, pc.looked, pc.id)
      && (pc.Looked? ==> states[pc.looked].hall.regs[pc.id] == pc.row)
      && (pc.Decided? ==> IsOpen(states[pc.looked].hall, pc.id))
  }

  ghost predicate AdmissionTold(states: seq<System>, moves: seq<Move>, a: Admission, i: nat)
    requires IsRun(states, moves)
  {
    && a.looked < a.wrote < i <= |moves|
    && WasLooked(states, moves, a.desk, a.looked, a.id) && IsOpen(states[a.looked].hall, a.id)
    && moves[a.wrote].Write? && moves[a.wrote].p == a.desk
    && !IsOpen(states[a.wrote + 1].hall, a.id)
  }

  /** A desk's admissions are over before it looks again. */
  ghost predicate OneAtATime(s: System) {
    && (forall k :: 0 <= k < |s.admits| && !At(s, s.admits[k].desk).Away? ==>
          s.admits[k].wrote < At(s, s.admits[k].desk).looked)
    && (forall k, l :: 0 <= k < l < |s.admits| ==>
          && s.admits[k].wrote < s.admits[l].wrote
          && (s.admits[k].desk == s.admits[l].desk ==> s.admits[k].wrote < s.admits[l].looked))
    && (forall k :: 0 <= k < |s.admits| ==> s.admits[k].wrote < s.steps)
  }

  ghost predicate AllTold(states: seq<System>, moves: seq<Move>, i: nat)
    requires IsRun(states, moves) && i < |states|
  {
    && (forall p: nat :: PcTold(states, moves, p, At(states[i], p), i))
    && forall k :: 0 <= k < |states[i].admits| ==> AdmissionTold(states, moves, states[i].admits[k], i)
  }

  lemma OthersStand(s: System, m: Move, p: nat)
    requires Enabled(s, m)
    ensures At(Next(s, m), p) == if Mover(m) == Some(p) then NextPc(s, m) else At(s, p)
  {
    hide NextPc, NextHall;
  }

  lemma MoveKeepsOneAtATime(s: System, m: Move)
    requires OneAtATime(s) && Enabled(s, m)
    ensures OneAtATime(Next(s, m))
  {
    hide NextHall, Refusal, FindByBarcode, Trim, Transition;
    forall p: nat ensures At(Next(s, m), p) == if Mover(m) == Some(p) then NextPc(s, m) else At(s, p) {
      OthersStand(s, m, p);
    }
  }

  lemma MovedPcTold(states: seq<System>, moves: seq<Move>, i: nat)
    requires IsRun(states, moves) && i < |moves| && states[i].steps == i && Mover(moves[i]).Some?
    requires PcTold(states, moves, Mover(moves[i]).value, At(states[i], Mover(moves[i]).value), i)
    ensures Enabled(states[i], moves[i])
    ensures PcTold(states, moves, Mover(moves[i]).value, NextPc(states[i], moves[i]), i + 1)
  {
    assert Enabled(states[i], moves[i]);
    hide Trim, Next;
  }

  lemma {:induction false} EverythingTold(states: seq<System>, moves: seq<Move>, i: nat)
    requires IsRun(states, moves) && i < |states|
    ensures AllTold(states, moves, i) && OneAtATime(states[i])
  {
    hide IsRun, Next, Enabled, PcTold, AdmissionTold, OneAtATime;
    if i > 0 {
      EverythingTold(states, moves, i - 1);
      StepOf(states, moves, i);
      StepsAndRows(states, moves, i - 1);
      var s, m := states[i - 1], moves[i - 1];
      MoveKeepsOneAtATime(s, m);
      forall p: nat ensures PcTold(states, moves, p, At(states[i], p), i) {
        OthersStand(s, m, p);
        if Mover(m) == Some(p) { MovedPcTold(states, moves, i - 1); }
            else { PcLater(states, moves, p, At(s, p), i - 1); }
      }
      AdmissionsTold(states, moves, i);
    } else {
      FirstTold(states, moves);
    }
  }

  lemma FirstTold(states: seq<System>, moves: seq<Move>)
    requires IsRun(states, moves)
    ensures AllTold(states, moves, 0) && OneAtATime(states[0])
  {
    hide Next, Enabled, WasLooked;
  }

  lemma PcLater(states: seq<System>, moves: seq<Move>, p: nat, pc: Pc, i: nat)
    requires IsRun(states, moves) && PcTold(states, moves, p, pc, i)
    ensures PcTold(states, moves, p, pc, i + 1)
  {
    hide IsRun, WasLooked;
  }

  lemma AdmissionsTold(states: seq<System>, moves: seq<Move>, i: nat)
    requires IsRun(states, moves) && 0 < i < |states| && states[i - 1].steps == i - 1
    requires AllTold(states, moves, i - 1)
    ensures forall k :: 0 <= k < |states[i].admits| ==> AdmissionTold(states, moves, states[i].admits[k], i)
  {
    StepOf(states, moves, i);
    var s, m := states[i - 1], moves[i - 1];
    if Admits(s, m) {
      DeskMoves(s, m);
      assert PcTold(states, moves, m.p, At(s, m.p), i - 1);
    }
    hide IsRun, WasLooked, IsOpen, NextHall, NextPc, Transition;
  }

  // ── one row over a run ──

  /** Some step strictly between took the row into open. */
  ghost predicate ReopenedBetween(states: seq<System>, i: nat, j: nat, id: Uuid)
    requires j < |states|
  {
    exists k :: i < k < j && OpensBy(states[k], states[k + 1], id)
  }

  lemma {:induction false} SomeStepOpens(states: seq<System>, id: Uuid, i: nat, j: nat)
    requires i <= j < |states| && !IsOpen(states[i].hall, id) && IsOpen(states[j].hall, id)
    ensures exists k :: i <= k < j && OpensBy(states[k], states[k + 1], id)
    decreases j
  {
    hide IsOpen;
    if IsOpen(states[j - 1].hall, id) {
      SomeStepOpens(states, id, i, j - 1);
    } else {
      assert OpensBy(states[j - 1], states[j - 1 + 1], id);
    }
  }

  /** Step c closed the row and none between it and j opened it. */
  ghost predicate ClosedFor(states: seq<System>, c: nat, j: nat, id: Uuid)
    requires c < j < |states|
  {
    ClosesBy(states[c], states[c + 1], id) && !ReopenedBetween(states, c, j, id)
  }

  lemma StaysClosedFor(states: seq<System>, c: nat, j: nat, id: Uuid)
    requires c < j && j + 1 < |states| && ClosedFor(states, c, j, id) && !OpensBy(states[j], states[j + 1], id)
    ensures ClosedFor(states, c, j + 1, id)
  {
    hide OpensBy, ClosesBy;
  }

  lemma {:induction false} SomeStepCloses(states: seq<System>, id: Uuid, i: nat, j: nat)
    requires i <= j < |states| && IsOpen(states[i].hall, id) && !IsOpen(states[j].hall, id)
    ensures exists c :: i <= c < j && ClosedFor(states, c, j, id)
    decreases j
  {
    if IsOpen(states[j - 1].hall, id) {
      assert ClosedFor(states, j - 1, j, id);
    } else {
      hide ClosedFor, IsOpen;
      SomeStepCloses(states, id, i, j - 1);
      var c :| i <= c < j - 1 && ClosedFor(states, c, j - 1, id);
      StaysClosedFor(states, c, j - 1, id);
    }
  }

  /**
   ADMITTED AGAIN, EXACTLY WHEN. Over any run, whatever happens in between: of two admissions of one
   row, the later one was looked up before the earlier one was written if and only if nothing took the row
   back into open between that write and that look. At one desk something always did.
   */
  lemma AdmittedAgainIff(states: seq<System>, moves: seq<Move>, i: nat, k: nat, l: nat)
    requires IsRun(states, moves) && i < |states| && k < l < |states[i].admits|
    requires states[i].admits[k].id == states[i].admits[l].id
    ensures var a, b := states[i].admits[k], states[i].admits[l];
            && a.wrote < b.wrote < |states| && b.looked < |states|
            && (b.looked < a.wrote <==> !ReopenedBetween(states, a.wrote, b.looked, a.id))
            && (a.desk == b.desk ==> ReopenedBetween(states, a.wrote, b.looked, a.id))
  {
    EverythingTold(states, moves, i);
    var a, b := states[i].admits[k], states[i].admits[l];
    assert AdmissionTold(states, moves, a, i) && AdmissionTold(states, moves, b, i);
    hide IsRun, AllTold, OpensBy, IsOpen;
    if a.wrote < b.looked { SomeStepOpens(states, a.id, a.wrote + 1, b.looked); }
  }

  /** One barcode is one row, over the whole run. */
  lemma SameTicketIff(states: seq<System>, moves: seq<Move>, i: nat, k: nat, l: nat)
    requires IsRun(states, moves) && i < |states| && k < |states[i].admits| && l < |states[i].admits|
    ensures var a, b := states[i].admits[k], states[i].admits[l];
            && a.looked < |moves| && b.looked < |moves| && moves[a.looked].Look? && moves[b.looked].Look?
            && (a.id == b.id <==> Trim(moves[a.looked].barcode) == Trim(moves[b.looked].barcode))
  {
    EverythingTold(states, moves, i);
    var a, b := states[i].admits[k], states[i].admits[l];
    assert AdmissionTold(states, moves, a, i) && AdmissionTold(states, moves, b, i);
    var n := |moves|;
    RowsStayThrough(states, moves, a.looked, n);
    RowsStayThrough(states, moves, b.looked, n);
    StepsAndRows(states, moves, a.looked);
    StepsAndRows(states, moves, b.looked);
    StepsAndRows(states, moves, n);
    hide IsRun, AllTold, Trim, IsOpen;
    FoundByItsBarcode(states[a.looked].hall, states[n].hall, Trim(moves[a.looked].barcode), a.id);
    FoundByItsBarcode(states[b.looked].hall, states[n].hall, Trim(moves[b.looked].barcode), b.id);
  }

  lemma FoundByItsBarcode(h: Hall, h': Hall, barcode: string, id: Uuid)
    requires Indexed(h) && RowsStay(h, h') && FindByBarcode(h, barcode) == Some(id)
    ensures id in h'.regs && h'.regs[id].barcode == barcode && FindByBarcode(h', barcode) == Some(id)
  {
  }

  /**
   WRITTEN OVER, EXACTLY WHEN. An admission is written onto a row that is not open if and only if, after
   its look, some step closed the row and none after that opened it: another desk's write, or a
   cancellation, which the write then undoes.
   */
  lemma WrittenOverIff(states: seq<System>, moves: seq<Move>, i: nat, k: nat)
    requires IsRun(states, moves) && i < |states| && k < |states[i].admits|
    ensures var a := states[i].admits[k];
            && a.wrote < |moves|
            && (!IsOpen(states[a.wrote].hall, a.id) <==>
                  exists c :: a.looked < c < a.wrote && ClosedFor(states, c, a.wrote, a.id))
  {
    EverythingTold(states, moves, i);
    var a := states[i].admits[k];
    assert AdmissionTold(states, moves, a, i);
    StepOf(states, moves, a.looked + 1);
    DeskMoves(states[a.looked], moves[a.looked]);
    hide IsRun, AllTold, IsOpen, Next, Enabled, WasLooked;
    if !IsOpen(states[a.wrote].hall, a.id) {
      SomeStepCloses(states, a.id, a.looked + 1, a.wrote);
    } else if c :| a.looked < c < a.wrote && ClosedFor(states, c, a.wrote, a.id) {
      SomeStepOpens(states, a.id, c + 1, a.wrote);
    }
  }

  // ── how many ──

  ghost function OpenNow(s: System, id: Uuid): (n: nat) {
    if IsOpen(s.hall, id) then 1 else 0
  }

  /** How often the row was taken into open, having been open at the start included. */
  ghost function Opened(states: seq<System>, id: Uuid, i: nat): (n: nat)
    requires i < |states|
  {
    if i == 0 then OpenNow(states[0], id)
    else Opened(states, id, i - 1) + if OpensBy(states[i - 1], states[i], id) then 1 else 0
  }

  /** How often a step other than a desk's write took it out. */
  ghost function ClosedElsewhere(states: seq<System>, moves: seq<Move>, id: Uuid, i: nat): (n: nat)
    requires i < |states| && |states| == |moves| + 1
  {
    if i == 0 then 0
    else
      ClosedElsewhere(states, moves, id, i - 1)
      + if ClosesBy(states[i - 1], states[i], id) && !Admits(states[i - 1], moves[i - 1]) then 1 else 0
  }

  function AdmitsOf(admits: seq<Admission>, id: Uuid): (n: nat) {
    if admits == [] then 0
    else AdmitsOf(admits[..|admits| - 1], id) + if admits[|admits| - 1].id == id then 1 else 0
  }

  /** Those written onto a row that was not open. */
  ghost function WrittenOver(states: seq<System>, admits: seq<Admission>, id: Uuid): (n: nat) {
    if admits == [] then 0
    else
      var a := admits[|admits| - 1];
      WrittenOver(states, admits[..|admits| - 1], id)
      + if a.id == id && a.wrote < |states| && !IsOpen(states[a.wrote].hall, id) then 1 else 0
  }

  lemma AppendAdmission(states: seq<System>, admits: seq<Admission>, a: Admission, id: Uuid)
    ensures AdmitsOf(admits + [a], id) == AdmitsOf(admits, id) + if a.id == id then 1 else 0
    ensures WrittenOver(states, admits + [a], id) == WrittenOver(states, admits, id)
        + if a.id == id && a.wrote < |states| && !IsOpen(states[a.wrote].hall, id) then 1 else 0
  {
    hide IsOpen;
    assert (admits + [a])[..|admits|] == admits;
  }

  /**
   HOW MANY ADMISSIONS: as many as the row was opened, less those openings another verb ended or that
   still last, and one more for each write onto a row not open. So a ticket is admitted once per opening
   at most, but for those.
   */
  lemma {:induction false} AdmissionsCount(states: seq<System>, moves: seq<Move>, i: nat, id: Uuid)
    requires IsRun(states, moves) && i < |states|
    ensures AdmitsOf(states[i].admits, id) + ClosedElsewhere(states, moves, id, i) + OpenNow(states[i], id)
         == Opened(states, id, i) + WrittenOver(states, states[i].admits, id)
  {
    if i > 0 {
      AdmissionsCount(states, moves, i - 1, id);
      StepOf(states, moves, i);
      StepsAndRows(states, moves, i - 1);
      var s, m := states[i - 1], moves[i - 1];
      if Mover(m).Some? {
        DeskMoves(s, m);
        if Admits(s, m) {
          AppendAdmission(states, s.admits, Admission(At(s, m.p).id, m.p, At(s, m.p).looked, s.steps), id);
        }
      }
    }
    hide IsRun, NextHall, NextPc, Transition, Indexed, AdmitsOf, WrittenOver;
  }

  // ── two runs ──

  function Decides(p: nat, barcode: string, eventId: Uuid, now: int): (moves: seq<Move>) {
    [Look(p, barcode), Judge(p, eventId, now)]
  }

  ghost predicate Reaches(s: System, moves: seq<Move>, end: System)
    decreases |moves|
  {
    if moves == [] then s == end
    else Enabled(s, moves[0]) && Reaches(Next(s, moves[0]), moves[1..], end)
  }

  lemma {:induction false} ReachesThrough(s: System, a: seq<Move>, mid: System, b: seq<Move>, end: System)
    requires Reaches(s, a, mid) && Reaches(mid, b, end)
    ensures Reaches(s, a + b, end)
    decreases |a|
  {
    hide Next, Enabled;
    if a == [] {
      assert a + b == b;
    } else {
      assert (a + b)[1..] == a[1..] + b && (a + b)[0] == a[0];
      ReachesThrough(Next(s, a[0]), a[1..], mid, b, end);
    }
  }

  lemma ReachesOne(s: System, m: Move)
    requires Enabled(s, m)
    ensures Reaches(s, [m], Next(s, m))
  {
    hide Next, Enabled;
    assert Reaches(Next(s, m), [m][1..], Next(s, m));
  }

  /** A ticket a scan would admit now. */
  ghost predicate Admissible(h: Hall, barcode: string, eventId: Uuid, now: int, id: Uuid) {
    && FindByBarcode(h, Trim(barcode)) == Some(id) && h.regs[id].active && h.regs[id].state == Open
    && h.regs[id].eventId == eventId && eventId in h.events && Ongoing(h.events[eventId], now)
  }

  /** A desk with nothing to do looks the ticket up and finds it good. */
  lemma DeskDecides(s: System, p: nat, barcode: string, eventId: Uuid, now: int, id: Uuid) returns (mid: System)
    requires At(s, p) == Away && Admissible(s.hall, barcode, eventId, now, id)
    ensures Reaches(s, Decides(p, barcode, eventId, now), mid)
    ensures mid == System(s.hall, s.desks[p := Decided(s.steps, id)], s.admits, s.steps + 2)
  {
    hide Trim, FindByBarcode, Reaches;
    var s1 := Next(s, Look(p, barcode));
    mid := Next(s1, Judge(p, eventId, now));
    assert s.desks[p := Looked(s.steps, id, s.hall.regs[id])][p := Decided(s.steps, id)]
        == s.desks[p := Decided(s.steps, id)];
    ReachesOne(s, Look(p, barcode));
    ReachesOne(s1, Judge(p, eventId, now));
    hide Next, Enabled;
    ReachesThrough(s, [Look(p, barcode)], s1, [Judge(p, eventId, now)], mid);
    assert [Look(p, barcode)] + [Judge(p, eventId, now)] == Decides(p, barcode, eventId, now);
  }

  function TwoDesks(barcode: string, eventId: Uuid, now: int): (moves: seq<Move>) {
    Decides(0, barcode, eventId, now) + Decides(1, barcode, eventId, now) + [Write(0, now)] + [Write(1, now)]
  }

  /** TWO DESKS ADMIT ONE TICKET when both decide before either writes; the rows end as after one scan. */
  lemma TwoDesksBothAdmit(s: System, barcode: string, eventId: Uuid, now: int, id: Uuid) returns (end: System)
    requires s.desks == map[] && Admissible(s.hall, barcode, eventId, now, id)
    ensures Reaches(s, TwoDesks(barcode, eventId, now), end)
    ensures |end.admits| == |s.admits| + 2 && end.admits[|s.admits|].id == end.admits[|s.admits| + 1].id == id
    ensures Scan(s.hall, barcode, eventId, now, now) == Ok((end.hall, id))
  {
    hide Trim, FindByBarcode, SeatSet, Full, Reaches, Decides;
    var s2 := DeskDecides(s, 0, barcode, eventId, now, id);
    var s4 := DeskDecides(s2, 1, barcode, eventId, now, id);
    var s5 := Next(s4, Write(0, now));
    end := Next(s5, Write(1, now));
    ReachesOne(s4, Write(0, now));
    ReachesOne(s5, Write(1, now));
    assert Scan(s.hall, barcode, eventId, now, now) == Ok((s5.hall, id)) && end.hall == s5.hall;
    hide Next, Enabled, Scan;
    var two := Decides(0, barcode, eventId, now) + Decides(1, barcode, eventId, now);
    ReachesThrough(s, Decides(0, barcode, eventId, now), s2, Decides(1, barcode, eventId, now), s4);
    ReachesThrough(s, two, s4, [Write(0, now)], s5);
    ReachesThrough(s, two + [Write(0, now)], s5, [Write(1, now)], end);
  }

  function CancelledMeanwhile(barcode: string, eventId: Uuid, now: int, id: Uuid): (moves: seq<Move>) {
    Decides(0, barcode, eventId, now) + [Other(Verb(id, Cancel, now))] + [Write(0, now)]
  }

  /** ONE DESK ADMITS A CANCELLED TICKET, cancelled between the look and the write: a scan begun after the
      cancellation is refused; the write takes a seat and makes the row done. */
  lemma CancelledTicketAdmitted(s: System, barcode: string, eventId: Uuid, now: int, id: Uuid)
    returns (cancelled: Hall, end: System)
    requires s.desks == map[] && Admissible(s.hall, barcode, eventId, now, id)
    requires !Full(s.hall.events[eventId], |SeatSet(s.hall.regs, eventId, s.hall.regs[id].slot) - {id}|)
    ensures cancelled == Act(s.hall, Verb(id, Cancel, now))
    ensures Scan(cancelled, barcode, eventId, now, now) == Err(DeskCanceledRegistration)
    ensures Reaches(s, CancelledMeanwhile(barcode, eventId, now, id), end)
    ensures |end.admits| == |s.admits| + 1 && end.admits[|s.admits|].id == id
    ensures id in end.hall.regs && end.hall.regs[id].state == Done
  {
    hide Trim, SeatSet, Full, Reaches, Decides;
    var s2 := DeskDecides(s, 0, barcode, eventId, now, id);
    var s3 := Next(s2, Other(Verb(id, Cancel, now)));
    cancelled := s3.hall;
    end := Next(s3, Write(0, now));
    var to := Moved(s.hall.regs[id], Cancel, now);
    assert cancelled.regs == s.hall.regs[id := to] && cancelled.events == s.hall.events;
    OthersStay(s.hall.regs, id, to, eventId, to.slot);
    assert Transition(cancelled, id, Done, now).Ok?;
    ReachesOne(s2, Other(Verb(id, Cancel, now)));
    ReachesOne(s3, Write(0, now));
    hide Next, Enabled;
    var first := Decides(0, barcode, eventId, now);
    ReachesThrough(s, first, s2, [Other(Verb(id, Cancel, now))], s3);
    ReachesThrough(s, first + [Other(Verb(id, Cancel, now))], s3, [Write(0, now)], end);
  }
}
