/** Enqueue once, drop last, count everything: what every run of the row keeps. */
module MailLaws {
  import opened Wrappers
  import opened Text
  import opened MailModel
  import opened MailWalk

  function Sends(log: seq<Note>, id: Uuid): (n: nat) {
    if log == [] then 0
    else Sends(log[..|log| - 1], id) + if log[|log| - 1].Sent? && log[|log| - 1].id == id then 1 else 0
  }

  function Drops(log: seq<Note>, id: Uuid): (n: nat) {
    if log == [] then 0
    else Drops(log[..|log| - 1], id) + if log[|log| - 1].Dropped? && log[|log| - 1].id == id then 1 else 0
  }

  function Marked(j: Job, id: Uuid, outcome: Outcome): (n: nat) {
    if id in j.receipts && j.receipts[id].outcome == Some(outcome) then 1 else 0
  }

  ghost predicate OutcomesMatch(j: Job) {
    forall id :: id in j.receipts ==> (j.receipts[id].sent <==> j.receipts[id].outcome.Some?)
  }

  /** Taken by a queue once for a queued receipt, and once more at most for each fault met;
      dropped once for a dropped one. */
  ghost predicate CountsMatch(j: Job) {
    forall id :: CountsMatchAt(j, id)
  }

  ghost predicate NeverAfterDrop(log: seq<Note>) {
    forall a, b :: 0 <= a < b < |log| && log[a].Dropped? && log[b].Sent? ==> log[a].id != log[b].id
  }

  ghost predicate MailInv(j: Job) {
    OutcomesMatch(j) && CountsMatch(j) && NeverAfterDrop(j.log)
  }

  lemma CountsOfAppend(log: seq<Note>, n: Note, id: Uuid)
    ensures Sends(log + [n], id) == Sends(log, id) + if n.Sent? && n.id == id then 1 else 0
    ensures Drops(log + [n], id) == Drops(log, id) + if n.Dropped? && n.id == id then 1 else 0
  {
    assert (log + [n])[..|log|] == log;
  }

  lemma {:induction false} DroppedIsCounted(log: seq<Note>, a: nat)
    requires a < |log| && log[a].Dropped?
    ensures Drops(log, log[a].id) > 0
  {
    if a < |log| - 1 { DroppedIsCounted(log[..|log| - 1], a); }
  }

  // ── one turn ──

  /** What a turn does to the record. */
  datatype Effect = Nothing | DropsIt | SendsIt(sms: bool, recipient: string, marked: bool)

  ghost predicate SettledAs(j: Job, j': Job, id: Uuid, outcome: Outcome)
    requires id in j.receipts
  {
    j'.receipts == j.receipts[id := j.receipts[id].(sent := true, outcome := Some(outcome))]
  }

  /** A send left unmarked costs a fault. */
  ghost predicate TurnLogs(j: Job, j': Job, id: Uuid, e: Effect)
    requires id in j.receipts
  {
    && j'.faults >= j.faults
    && match e
       case Nothing => j'.log == j.log && j'.receipts == j.receipts
       case DropsIt => j'.log == j.log + [Dropped(id)] && SettledAs(j, j', id, DroppedWindowClosed)
       case SendsIt(sms, recipient, marked) =>
         && j'.log == j.log + [Sent(id, sms, recipient)]
         && (if marked then SettledAs(j, j', id, Queued) else j'.receipts == j.receipts && j'.faults > j.faults)
  }

  ghost predicate TurnIsClean(j: Job, j': Job, a: Attendee) {
    a.id in j.receipts && !j.receipts[a.id].sent && exists e :: TurnLogs(j, j', a.id, e)
  }

  lemma EnqueueLogs(j: Job, a: Attendee, recipient: string, env: Env)
    requires a.id in j.receipts && !j.receipts[a.id].sent
    ensures TurnIsClean(j, EnqueueOne(j, a, recipient, env).0, a)
  {
    var j' := EnqueueOne(j, a, recipient, env).0;
    var sms := j.plan.channel == "sms";
    match env.enqueue(j.clock, a.id)
    case No(_) => assert TurnLogs(j, j', a.id, Nothing);
    case CutOff(landed) => assert TurnLogs(j, j', a.id, if landed then SendsIt(sms, recipient, false) else Nothing);
    case Yes => assert TurnLogs(j, j', a.id, SendsIt(sms, recipient, Lands(env, j.clock + 1)));
  }

  lemma WalkOneLogs(j: Job, a: Attendee, env: Env)
    requires a.id in j.receipts && !j.receipts[a.id].sent
    ensures TurnIsClean(j, WalkOne(j, a, env).0, a)
  {
    var j' := WalkOne(j, a, env).0;
    if env.at(j.clock) < j.plan.dateEnd && env.render(j.clock, a.id) == Yes && Recipient(j.plan.channel, a).Some? {
      var to := Recipient(j.plan.channel, a).value;
      EnqueueLogs(Tick(j), a, to, env);
      hide Recipient, EnqueueOne;
      var e :| TurnLogs(Tick(j), j', a.id, e);
      assert TurnLogs(j, j', a.id, e);
    } else {
      hide Recipient, EnqueueOne;
      var e := if j.plan.dateEnd <= env.at(j.clock) && Lands(env, j.clock) then DropsIt else Nothing;
      assert TurnLogs(j, j', a.id, e);
    }
  }

  ghost predicate CountsMatchAt(j: Job, id: Uuid) {
    && Marked(j, id, Queued) <= Sends(j.log, id) <= Marked(j, id, Queued) + j.faults
    && Drops(j.log, id) == Marked(j, id, DroppedWindowClosed)
  }

  lemma TurnKeepsCounts(j: Job, j': Job, id: Uuid, e: Effect, x: Uuid)
    requires MailInv(j) && id in j.receipts && !j.receipts[id].sent && TurnLogs(j, j', id, e)
    ensures CountsMatchAt(j', x)
  {
    hide Sends, Drops;
    assert CountsMatchAt(j, x);
    match e
    case Nothing =>
    case DropsIt => CountsOfAppend(j.log, Dropped(id), x);
    case SendsIt(sms, recipient, _) => CountsOfAppend(j.log, Sent(id, sms, recipient), x);
  }

  lemma TurnKeepsInv(j: Job, j': Job, a: Attendee)
    requires MailInv(j) && TurnIsClean(j, j', a)
    ensures MailInv(j')
  {
    var e :| TurnLogs(j, j', a.id, e);
    forall x ensures CountsMatchAt(j', x) { TurnKeepsCounts(j, j', a.id, e, x); }
    assert CountsMatchAt(j, a.id);
    hide CountsMatchAt, Drops;
    forall p, q | 0 <= p < q < |j'.log| && j'.log[p].Dropped? && j'.log[q].Sent? ensures j'.log[p].id != j'.log[q].id {
      if p < |j.log| { DroppedIsCounted(j.log, p); }
    }
  }

  // ── the walk ──

  /** Rows about to be walked: distinct, each with an unsent receipt. */
  ghost predicate Walkable(j: Job, due: seq<Attendee>) {
    DistinctIds(due) && forall a :: a in due ==> a.id in j.receipts && !j.receipts[a.id].sent
  }

  lemma WalkableRest(j: Job, due: seq<Attendee>, env: Env)
    requires due != [] && Walkable(j, due)
    ensures Walkable(WalkOne(j, due[0], env).0, due[1..])
  {
    WalkOneEffect(j, due[0], env);
    hide WalkOne;
    forall a | a in due[1..] ensures a.id != due[0].id && a in due {
      var i :| 0 <= i < |due[1..]| && due[1..][i] == a;
      assert due[i + 1] == a;
    }
  }

  lemma {:induction false} WalkManyKeepsInv(j: Job, due: seq<Attendee>, env: Env)
    requires MailInv(j) && Walkable(j, due)
    ensures MailInv(WalkMany(j, due, env).0)
    decreases |due|
  {
    if due != [] {
      assert due[0] in due;
      WalkOneLogs(j, due[0], env);
      WalkableRest(j, due, env);
      hide WalkOne, MailInv, TurnIsClean;
      var j1 := WalkOne(j, due[0], env).0;
      TurnKeepsInv(j, j1, due[0]);
      WalkManyKeepsInv(j1, due[1..], env);
    }
  }

  /** Only what the invariant does not speak of has changed, but for more faults. */
  ghost predicate SameRecord(j: Job, j': Job) {
    j'.receipts == j.receipts && j'.log == j.log && j'.faults >= j.faults
  }

  lemma SameRecordKeepsInv(j: Job, j': Job)
    requires MailInv(j) && SameRecord(j, j')
    ensures MailInv(j')
  {
    hide Sends, Drops;
    forall id ensures CountsMatchAt(j', id) { assert CountsMatchAt(j, id); }
  }

  lemma {:induction false} RoundsKeepInv(j: Job, n: nat, batch: nat, env: Env)
    requires MailInv(j) && DistinctIds(j.attendees)
    ensures MailInv(Rounds(j, n, batch, env).0)
    decreases n
  {
    hide MailInv, DueReceipts, WalkMany;
    if n > 0 {
      var due := DueReceipts(j, env.at(j.clock), batch);
      var ticked := DbTick(j, env);
      FetchFacts(j, env.at(j.clock), batch);
      SameRecordKeepsInv(j, ticked);
      WalkManyKeepsInv(ticked, due, env);
      WalkManyEffect(ticked, due, env);
      var (j1, e) := Round(j, batch, env);
      if e == More { RoundsKeepInv(j1, n - 1, batch, env); }
    }
  }

  // ── a whole run of the row ──

  lemma {:induction false} MissingFacts(attendees: seq<Attendee>, receipts: map<Uuid, Receipt>)
    ensures forall a :: a in MissingRows(attendees, receipts) <==> a in attendees && Eligible(a) && a.id !in receipts
    ensures DistinctIds(attendees) ==> DistinctIds(MissingRows(attendees, receipts))
  {
    if attendees != [] {
      hide Eligible;
      var tail := attendees[1..];
      assert attendees == [attendees[0]] + tail;
      MissingFacts(tail, receipts);
      var m := MissingRows(tail, receipts);
      if DistinctIds(attendees) {
        assert DistinctIds(tail);
        forall i | 0 <= i < |m| ensures m[i].id != attendees[0].id { assert m[i] in tail; }
      }
    }
  }

  function NewReceipt(a: Attendee, delay: int): (r: Receipt) {
    Receipt(if a.createdAt.Some? then Some(a.createdAt.value + delay) else None, false, None)
  }

  /** Ids outside the rows keep their receipt, or their lack of one. */
  lemma {:induction false} OthersKeepReceipts(receipts: map<Uuid, Receipt>, rows: seq<Attendee>, delay: int, id: Uuid)
    requires forall i :: 0 <= i < |rows| ==> rows[i].id != id
    ensures var m := WithReceipts(receipts, rows, delay);
            (id in m <==> id in receipts) && (id in receipts ==> m[id] == receipts[id])
    decreases |rows|
  {
    if rows != [] {
      assert rows[0].id != id && forall i :: 0 <= i < |rows[1..]| ==> rows[1..][i] == rows[i + 1];
      OthersKeepReceipts(receipts[rows[0].id := NewReceipt(rows[0], delay)], rows[1..], delay, id);
    }
  }

  lemma {:induction false} RowGetsReceipt(receipts: map<Uuid, Receipt>, rows: seq<Attendee>, delay: int, i: nat)
    requires DistinctIds(rows) && i < |rows|
    ensures var m := WithReceipts(receipts, rows, delay);
            rows[i].id in m && m[rows[i].id] == NewReceipt(rows[i], delay)
    decreases |rows|
  {
    var more := receipts[rows[0].id := NewReceipt(rows[0], delay)];
    if i == 0 {
      OthersKeepReceipts(more, rows[1..], delay, rows[0].id);
    } else {
      RowGetsReceipt(more, rows[1..], delay, i - 1);
    }
  }

  /** New receipts are unsent and nobody else's receipt moves. */
  lemma WithReceiptsFacts(receipts: map<Uuid, Receipt>, rows: seq<Attendee>, delay: int)
    requires DistinctIds(rows)
    ensures var m := WithReceipts(receipts, rows, delay);
            && m.Keys == receipts.Keys + AttendeeIds(rows)
            && (forall id :: id in receipts && id !in AttendeeIds(rows) ==> m[id] == receipts[id])
            && (forall a :: a in rows ==>
                m[a.id] == Receipt(if a.createdAt.Some? then Some(a.createdAt.value + delay) else None, false, None))
  {
    var m := WithReceipts(receipts, rows, delay);
    forall id ensures id in m <==> id in receipts || id in AttendeeIds(rows) { ReceiptOf(receipts, rows, delay, id); }
    forall id | id in receipts && id !in AttendeeIds(rows) ensures m[id] == receipts[id] {
      ReceiptOf(receipts, rows, delay, id);
    }
    forall a | a in rows ensures m[a.id] == NewReceipt(a, delay) {
      var i :| 0 <= i < |rows| && rows[i] == a;
      RowGetsReceipt(receipts, rows, delay, i);
    }
    hide WithReceipts, AttendeeIds, DistinctIds;
  }

  lemma ReceiptOf(receipts: map<Uuid, Receipt>, rows: seq<Attendee>, delay: int, id: Uuid)
    requires DistinctIds(rows)
    ensures var m := WithReceipts(receipts, rows, delay);
            (id in m <==> id in receipts || id in AttendeeIds(rows))
                && (id in receipts && id !in AttendeeIds(rows) ==> m[id] == receipts[id])
  {
    hide WithReceipts;
    if id in AttendeeIds(rows) {
      var i :| 0 <= i < |rows| && rows[i].id == id;
      RowGetsReceipt(receipts, rows, delay, i);
    } else {
      forall i | 0 <= i < |rows| ensures rows[i].id != id { assert rows[i] in rows; }
      OthersKeepReceipts(receipts, rows, delay, id);
    }
  }

  lemma MissingTaken(j: Job, batch: nat)
    requires DistinctIds(j.attendees)
    ensures var rows := Take(MissingRows(j.attendees, j.receipts), batch);
            DistinctIds(rows) && forall id :: id in AttendeeIds(rows) ==> id !in j.receipts
  {
    MissingFacts(j.attendees, j.receipts);
    var rows := Take(MissingRows(j.attendees, j.receipts), batch);
    hide MissingRows, Eligible;
    assert forall a :: a in rows ==> a in MissingRows(j.attendees, j.receipts);
  }

  lemma AddedReceiptsKeepInv(j: Job, rows: seq<Attendee>)
    requires MailInv(j) && DistinctIds(j.attendees) && DistinctIds(rows)
    requires forall id :: id in AttendeeIds(rows) ==> id !in j.receipts
    ensures MailInv(j.(receipts := WithReceipts(j.receipts, rows, j.plan.delay)))
  {
    WithReceiptsFacts(j.receipts, rows, j.plan.delay);
    UnsentHaveNoOutcome(j);
    hide MailInv, WithReceipts, DistinctIds;
    var more := j.(receipts := WithReceipts(j.receipts, rows, j.plan.delay));
    assert Legal(j, Edit(more));
    EditKeepsInv(j, more);
  }

  lemma MaterializeKeepsInv(j: Job, batch: nat, env: Env)
    requires MailInv(j) && DistinctIds(j.attendees)
    ensures MailInv(Materialize(j, batch, env))
  {
    hide MailInv, WithReceipts, DistinctIds, MissingRows, AttendeeIds;
    MissingTaken(j, batch);
    var rows := Take(MissingRows(j.attendees, j.receipts), batch);
    AddedReceiptsKeepInv(j, rows);
    var more := j.(receipts := WithReceipts(j.receipts, rows, j.plan.delay));
    SameRecordKeepsInv(if Lands(env, j.clock) then more else j, Materialize(j, batch, env));
  }

  lemma UnsentHaveNoOutcome(j: Job)
    requires MailInv(j)
    ensures forall id :: id in j.receipts && !j.receipts[id].sent ==> j.receipts[id].outcome == None
  {
  }

  lemma CloseKeepsRecord(j: Job, env: Env)
    ensures SameRecord(j, Close(j, env).0)
  {
    hide AllSettled, MissingRows, DueReceipts;
  }

  lemma RunOneKeepsInv(j: Job, trips: nat, batch: nat, env: Env)
    requires MailInv(j) && DistinctIds(j.attendees)
    ensures MailInv(RunOne(j, trips, batch, env).0)
  {
    if j.plan.templateRef == None {
      SameRecordKeepsInv(j, RecordFailure(j, TemplateUnresolved, env).0);
    } else {
      hide MailInv, Rounds, Materialize, Close;
      MaterializeKeepsInv(j, batch, env);
      MaterializeKeepsRow(j, batch, env);
      var materialized := Materialize(j, batch, env);
      SameRecordKeepsInv(materialized, DbTick(materialized, env));
      var (ready, ok) := Prepared(j, batch, env);
      RoundsKeepInv(ready, trips, batch, env);
      var walked := Rounds(ready, trips, batch, env).0;
      CloseKeepsRecord(walked, env);
      SameRecordKeepsInv(walked, Close(walked, env).0);
    }
  }

  lemma MaterializeKeepsRow(j: Job, batch: nat, env: Env)
    ensures SameRow(j, Materialize(j, batch, env))
  {
  }

  // ── runs ──

  /** A run of the row, or whatever the verbs, the officers and the cancellation sweep do in between:
      any change of the registrations, of the row's settings or of its event, any receipt added or
      removed as long as none is sent. */
  datatype Action = Run(trips: nat, batch: nat) | Edit(to: Job)

  /** What only a run writes: the log of messages, the faults met, the clock and the counters. */
  ghost predicate SameRun(j: Job, to: Job) {
    to.log == j.log && to.faults == j.faults && to.clock == j.clock && to.tally == j.tally
  }

  ghost predicate Legal(j: Job, a: Action) {
    match a
    case Run(_, _) => true
    case Edit(to) =>
      && SameRun(j, to) && DistinctIds(to.attendees)
      && (forall id :: id in j.receipts && j.receipts[id].sent ==>
          id in to.receipts && to.receipts[id] == j.receipts[id])
      && (forall id :: id in to.receipts && !(id in j.receipts && j.receipts[id].sent) ==>
            !to.receipts[id].sent && to.receipts[id].outcome == None)
  }

  ghost function Act(j: Job, a: Action, env: Env): Job {
    match a
    case Run(trips, batch) => RunOne(j, trips, batch, env).0
    case Edit(to) => to
  }

  ghost predicate IsHistory(jobs: seq<Job>, actions: seq<Action>, env: Env) {
    && |jobs| == |actions| + 1
    && jobs[0].receipts == map[] && jobs[0].log == [] && DistinctIds(jobs[0].attendees)
    && forall i :: 0 <= i < |actions| ==> Legal(jobs[i], actions[i]) && jobs[i + 1] == Act(jobs[i], actions[i], env)
  }

  lemma EditKeepsInv(j: Job, to: Job)
    requires MailInv(j) && Legal(j, Edit(to))
    ensures MailInv(to)
  {
    hide Sends, Drops;
    forall id ensures CountsMatchAt(to, id) { assert CountsMatchAt(j, id); }
  }

  lemma {:induction false} HistoryKeepsInv(jobs: seq<Job>, actions: seq<Action>, env: Env, i: nat)
    requires IsHistory(jobs, actions, env) && i < |jobs|
    ensures MailInv(jobs[i]) && DistinctIds(jobs[i].attendees)
  {
    if i == 0 {
      forall id ensures CountsMatchAt(jobs[0], id) {}
    } else {
      HistoryKeepsInv(jobs, actions, env, i - 1);
      assert Legal(jobs[i - 1], actions[i - 1]) && jobs[i] == Act(jobs[i - 1], actions[i - 1], env);
      hide IsHistory, MailInv, RunOne;
      match actions[i - 1]
      case Run(trips, batch) =>
        RunOneKeepsInv(jobs[i - 1], trips, batch, env);
        RunOneKeepsAttendees(jobs[i - 1], trips, batch, env);
      case Edit(to) => EditKeepsInv(jobs[i - 1], to);
    }
  }

  /** What a close never moves. */
  ghost predicate SameSettings(j: Job, j': Job) {
    j'.attendees == j.attendees && j'.plan == j.plan && j'.clock >= j.clock
  }

  lemma CloseKeepsAttendees(j: Job, env: Env)
    ensures SameSettings(j, Close(j, env).0)
  {
    hide AllSettled, MissingRows, DueReceipts, RecomputeDone, ClearFailure, Rearm;
    forall x: Job
      ensures SameSettings(x, RecomputeDone(x, env)) && SameSettings(x, ClearFailure(x, env))
          && SameSettings(x, Rearm(x, env))
    {
      StatementsKeepSettings(x, env);
    }
  }

  lemma StatementsKeepSettings(j: Job, env: Env)
    ensures SameSettings(j, RecomputeDone(j, env)) && SameSettings(j, ClearFailure(j, env))
        && SameSettings(j, Rearm(j, env))
  {
    hide AllSettled;
  }

  lemma RunOneKeepsAttendees(j: Job, trips: nat, batch: nat, env: Env)
    ensures RunOne(j, trips, batch, env).0.attendees == j.attendees
  {
    hide Rounds, Materialize, Close;
    MaterializeKeepsRow(j, batch, env);
    var ready := Prepared(j, batch, env).0;
    RoundsKeepKeys(ready, trips, batch, env);
    CloseKeepsAttendees(Rounds(ready, trips, batch, env).0, env);
  }

  /**
   ENQUEUE ONCE. Over any history of runs, edits and sweeps: a receipt's message is taken
   by a queue at most once beyond the faults met, exactly once when there were none and it
   ended queued; never after the receipt was dropped; and it is dropped at most once.
   */
  lemma EnqueueOnce(jobs: seq<Job>, actions: seq<Action>, env: Env, i: nat, id: Uuid)
    requires IsHistory(jobs, actions, env) && i < |jobs|
    ensures var j := jobs[i];
            && Sends(j.log, id) <= 1 + j.faults
            && (j.faults == 0 ==> (Sends(j.log, id) == 1 <==> Marked(j, id, Queued) == 1))
            && Drops(j.log, id) <= 1
            && (Drops(j.log, id) == 1 && j.faults == 0 ==> Sends(j.log, id) == 0)
            && NeverAfterDrop(j.log)
  {
    HistoryKeepsInv(jobs, actions, env, i);
    assert CountsMatchAt(jobs[i], id);
    hide IsHistory, Sends, Drops;
  }

  // ── drops come last, and the counters add up ──

  /** From position `from` of the log on, nothing is sent after a drop; a drop there means
      the window is shut for good. */
  ghost predicate DropsLast(j: Job, from: nat, env: Env) {
    && from <= |j.log|
    && (forall a, b :: from <= a < b < |j.log| && j.log[a].Dropped? ==> j.log[b].Dropped?)
    && ((exists a :: from <= a < |j.log| && j.log[a].Dropped?) ==> j.plan.dateEnd <= env.at(j.clock))
  }

  lemma FailureAppendsNothing(j: Job, kind: ErrorKind, env: Env)
    ensures var j' := RecordFailure(j, kind, env).0;
            j'.log == j.log && j'.plan.dateEnd == j.plan.dateEnd && j'.clock >= j.clock
  {
  }

  /** The log as it was, or with one send more. */
  ghost predicate AtMostASend(j: Job, j': Job) {
    && j'.plan.dateEnd == j.plan.dateEnd && j'.clock >= j.clock
    && (j'.log == j.log || (|j'.log| == |j.log| + 1 && j'.log[..|j.log|] == j.log && j'.log[|j.log|].Sent?))
  }

  lemma EnqueueAppends(j: Job, a: Attendee, recipient: string, env: Env)
    ensures AtMostASend(j, EnqueueOne(j, a, recipient, env).0)
  {
    FailureAppendsNothing(Tick(j), SmsEnqueueRefused, env);
    FailureAppendsNothing(Tick(j), EnqueueRefused, env);
    hide RecordFailure;
  }

  lemma DropAppends(j: Job, a: Attendee, env: Env)
    ensures var j' := DropOne(j, a, env).0;
            j'.plan.dateEnd == j.plan.dateEnd && j'.clock > j.clock
                && (j'.log == j.log || j'.log == j.log + [Dropped(a.id)])
  {
  }

  lemma SendAppends(j: Job, a: Attendee, env: Env)
    requires env.at(j.clock) < j.plan.dateEnd
    ensures AtMostASend(j, WalkOne(j, a, env).0)
  {
    forall kind: ErrorKind ensures AtMostASend(j, RecordFailure(Tick(j), kind, env).0) {
      FailureAppendsNothing(Tick(j), kind, env);
    }
    var to := Recipient(j.plan.channel, a);
    if to.Some? { EnqueueAppends(Tick(j), a, to.value, env); }
    hide Recipient, EnqueueOne, RecordFailure;
  }

  /** Before the end a turn logs at most a send; at or past it, at most a drop. */
  lemma WalkOneAppends(j: Job, a: Attendee, env: Env)
    ensures var j' := WalkOne(j, a, env).0;
            && j'.plan.dateEnd == j.plan.dateEnd && j'.clock >= j.clock
            && (j'.log == j.log
                || (j.plan.dateEnd <= env.at(j.clock) && j'.log == j.log + [Dropped(a.id)])
                || (env.at(j.clock) < j.plan.dateEnd && AtMostASend(j, j')))
  {
    if j.plan.dateEnd <= env.at(j.clock) {
      DropAppends(j, a, env);
      hide DropOne;
    } else {
      SendAppends(j, a, env);
      hide WalkOne;
    }
  }

  lemma WalkOneDropsLast(j: Job, a: Attendee, from: nat, env: Env)
    requires Monotone(env) && DropsLast(j, from, env)
    ensures DropsLast(WalkOne(j, a, env).0, from, env)
  {
    WalkOneAppends(j, a, env);
    var j' := WalkOne(j, a, env).0;
    hide WalkOne;
    assert env.at(j.clock) <= env.at(j'.clock);
    assert forall k :: 0 <= k < |j.log| ==> j'.log[k] == j.log[k];
  }

  lemma {:induction false} WalkManyDropsLast(j: Job, due: seq<Attendee>, from: nat, env: Env)
    requires Monotone(env) && DropsLast(j, from, env)
    ensures DropsLast(WalkMany(j, due, env).0, from, env)
    decreases |due|
  {
    if due != [] {
      hide WalkOne, DropsLast, Monotone;
      WalkOneDropsLast(j, due[0], from, env);
      WalkManyDropsLast(WalkOne(j, due[0], env).0, due[1..], from, env);
    }
  }

  lemma RoundDropsLast(j: Job, from: nat, batch: nat, env: Env)
    requires Monotone(env) && DropsLast(j, from, env)
    ensures DropsLast(Round(j, batch, env).0, from, env)
  {
    var ticked := DbTick(j, env);
    assert DropsLast(ticked, from, env) by { assert env.at(j.clock) <= env.at(ticked.clock); }
    hide DropsLast, Monotone;
    WalkManyDropsLast(ticked, DueReceipts(j, env.at(j.clock), batch), from, env);
    hide WalkMany, DueReceipts;
  }

  lemma {:induction false} RoundsDropLast(j: Job, n: nat, from: nat, batch: nat, env: Env)
    requires Monotone(env) && DropsLast(j, from, env)
    ensures DropsLast(Rounds(j, n, batch, env).0, from, env)
    decreases n
  {
    hide Round, DropsLast, Monotone;
    if n > 0 {
      RoundDropsLast(j, from, batch, env);
      var (j1, e) := Round(j, batch, env);
      if e == More { RoundsDropLast(j1, n - 1, from, batch, env); }
    }
  }

  /** DROPS COME LAST. With a clock that never runs back, one walk queues nothing after it has
      dropped anything, whatever the host and the database do: in what it adds to the log a drop is
      followed by drops only, and once it has dropped the window is shut for good. */
  lemma WalkDropsLast(j: Job, n: nat, batch: nat, env: Env)
    requires Monotone(env)
    ensures DropsLast(Rounds(j, n, batch, env).0, |j.log|, env)
  {
    assert DropsLast(j, |j.log|, env);
    hide Monotone, DropsLast, Rounds;
    RoundsDropLast(j, n, |j.log|, batch, env);
  }

  /** Receipts counted as queued, queued by sms, or dropped. */
  function Endings(t: Tally): (n: nat) {
    t.queued + t.smsQueued + t.dropped
  }

  /** Each turn counted as queued or dropped makes one unsent receipt terminal. */
  ghost predicate AddsUp(j: Job, j': Job) {
    Endings(j'.tally) + |Unsent(j')| == Endings(j.tally) + |Unsent(j)|
  }

  lemma SettlingRemovesOne(j: Job, j': Job, id: Uuid, outcome: Outcome)
    requires id in j.receipts && !j.receipts[id].sent && SettledAs(j, j', id, outcome)
    ensures |Unsent(j')| == |Unsent(j)| - 1
  {
    assert Unsent(j') == Unsent(j) - {id};
    assert id in Unsent(j);
  }

  lemma MarkSettles(j: Job, id: Uuid, outcome: Outcome, env: Env)
    requires CrashFree(env) && id in j.receipts && !j.receipts[id].sent
    ensures |Unsent(MarkReceipt(j, id, outcome, env))| == |Unsent(j)| - 1
    ensures MarkReceipt(j, id, outcome, env).tally == j.tally
  {
    SettlingRemovesOne(j, MarkReceipt(j, id, outcome, env), id, outcome);
    hide Unsent;
  }

  lemma WalkOneAddsUp(j: Job, a: Attendee, env: Env)
    requires CrashFree(env) && a.id in j.receipts && !j.receipts[a.id].sent
    ensures AddsUp(j, WalkOne(j, a, env).0)
  {
    MarkSettles(j, a.id, DroppedWindowClosed, env);
    var asked := Tick(Tick(j));
    var to := Recipient(j.plan.channel, a);
    if to.Some? {
      MarkSettles(asked.(log := j.log + [Sent(a.id, j.plan.channel == "sms", to.value)]), a.id, Queued, env);
    }
    hide MarkReceipt, Recipient;
  }

  lemma {:induction false} WalkManyAddsUp(j: Job, due: seq<Attendee>, env: Env)
    requires CrashFree(env) && Walkable(j, due)
    ensures AddsUp(j, WalkMany(j, due, env).0)
    decreases |due|
  {
    if due != [] {
      assert due[0] in due;
      WalkOneAddsUp(j, due[0], env);
      WalkableRest(j, due, env);
      hide WalkOne, CrashFree, Unsent, Walkable;
      WalkManyAddsUp(WalkOne(j, due[0], env).0, due[1..], env);
    }
  }

  lemma RoundAddsUp(j: Job, batch: nat, env: Env)
    requires CrashFree(env) && DistinctIds(j.attendees)
    ensures AddsUp(j, Round(j, batch, env).0)
  {
    var due := DueReceipts(j, env.at(j.clock), batch);
    var ticked := DbTick(j, env);
    FetchFacts(j, env.at(j.clock), batch);
    assert Unsent(ticked) == Unsent(j);
    hide DueReceipts, WalkMany, Unsent;
    WalkManyAddsUp(ticked, due, env);
  }

  /** CONSERVATION. Mail queued, sms queued and dropped together count exactly the receipts
      the walk made terminal. */
  lemma {:induction false} WalkAddsUp(j: Job, n: nat, batch: nat, env: Env)
    requires CrashFree(env) && DistinctIds(j.attendees)
    ensures AddsUp(j, Rounds(j, n, batch, env).0)
    decreases n
  {
    if n > 0 {
      hide Round, CrashFree, Unsent, DistinctIds;
      RoundAddsUp(j, batch, env);
      RoundKeepsKeys(j, batch, env);
      var (j1, e) := Round(j, batch, env);
      if e == More { WalkAddsUp(j1, n - 1, batch, env); }
    }
  }
}
