/**
 The scheduler pass over one row as it runs: receipts and the row updated in place, one
 awaited operation at a time, proved equal to the pass functions.
 */
module MailService {
  import opened Wrappers
  import opened Text
  import opened MailModel
  import opened MailWalk
  import opened MailLaws

  class Scheduler {
    // rows
    var attendees: seq<Attendee>
    var receipts: map<Uuid, Receipt>
    var done: bool
    var scheduledAt: int
    var error: Option<ErrorKind>
    // the run
    var tally: Tally
    var clock: nat
    ghost var log: seq<Note>
    ghost var faults: nat
    // the row's settings, the world outside and the cap
    const plan: Settings
    const env: Env
    const batch: nat

    ghost function View(): Job
      reads this
    {
      Job(attendees, receipts, plan, done, scheduledAt, error, log, clock, faults, tally)
    }

    ghost predicate Valid()
      reads this
    {
      batch > 0 && DistinctIds(attendees)
    }

    /** `with_caps`: a cap below one becomes one. */
    constructor (j: Job, env: Env, batch: int)
      requires DistinctIds(j.attendees)
      ensures Valid() && View() == j && this.env == env && this.batch == (if batch < 1 then 1 else batch)
    {
      attendees, receipts, done, scheduledAt, error := j.attendees, j.receipts, j.done, j.scheduledAt, j.error;
      tally, clock, log, faults := j.tally, j.clock, j.log, j.faults;
      plan := j.plan;
      this.env := env;
      this.batch := if batch < 1 then 1 else batch;
    }

    // ── the repository's statements ──

    method Await() returns (ok: bool, lands: bool)
      modifies this`clock, this`faults
      ensures View() == DbTick(old(View()), env)
      ensures ok == !env.db(old(clock)).Fault? && lands == Lands(env, old(clock))
    {
      var reply := env.db(clock);
      clock := clock + 1;
      if reply.Fault? { faults := faults + 1; }
      ok, lands := !reply.Fault?, !reply.Fault? || reply.landed;
    }

    method MaterializeReceipts() returns (ok: bool)
      modifies this`clock, this`faults, this`receipts, this`tally
      ensures View() == Materialize(old(View()), batch, env)
      ensures ok == !env.db(old(clock)).Fault?
    {
      hide MissingRows;
      var rows := Take(MissingRows(attendees, receipts), batch);
      var lands;
      ok, lands := Await();
      if lands {
        ghost var before := receipts;
        var i := 0;
        while i < |rows|
          invariant 0 <= i <= |rows|
          invariant WithReceipts(receipts, rows[i..], plan.delay) == WithReceipts(before, rows, plan.delay)
          invariant View() == DbTick(old(View()), env).(receipts := receipts)
        {
          assert rows[i..][1..] == rows[i + 1..];
          var due := if rows[i].createdAt.Some? then Some(rows[i].createdAt.value + plan.delay) else None;
          receipts := receipts[rows[i].id := Receipt(due, false, None)];
          i := i + 1;
        }
      }
      if ok { tally := tally.(materialized := tally.materialized + |rows|); }
    }

    method FetchDue(limit: nat) returns (ok: bool, rows: seq<Attendee>)
      modifies this`clock, this`faults
      ensures View() == DbTick(old(View()), env)
      ensures ok == !env.db(old(clock)).Fault?
      ensures rows == DueReceipts(old(View()), env.at(old(clock)), limit)
    {
      var now, lands := env.at(clock), false;
      DueRowsFacts(attendees, receipts, now);
      rows := Take(SortDue(receipts, DueRows(attendees, receipts, now)), limit);
      ok, lands := Await();
    }

    method MarkReceipt(id: Uuid, outcome: Outcome) returns (ok: bool)
      modifies this`clock, this`faults, this`receipts, this`log
      ensures View() == MailModel.MarkReceipt(old(View()), id, outcome, env)
      ensures ok == !env.db(old(clock)).Fault?
    {
      var lands;
      ok, lands := Await();
      if lands && id in receipts && !receipts[id].sent {
        receipts := receipts[id := receipts[id].(sent := true, outcome := Some(outcome))];
        if outcome == DroppedWindowClosed { log := log + [Dropped(id)]; }
      }
    }

    method RecordFailure(kind: ErrorKind) returns (ok: bool)
      modifies this`clock, this`faults, this`error, this`tally
      ensures (View(), ok) == MailModel.RecordFailure(old(View()), kind, env)
    {
      var lands;
      ok, lands := Await();
      if lands { error := Some(kind); }
      if ok { tally := tally.(failures := tally.failures + 1); }
    }

    // ── the host's ports ──

    method Render(id: Uuid) returns (reply: Host)
      modifies this`clock, this`faults
      ensures reply == env.render(old(clock), id)
      ensures View() == Tick(old(View())).(faults := old(faults) + if reply.CutOff? then 1 else 0)
    {
      reply := env.render(clock, id);
      clock := clock + 1;
      if reply.CutOff? { faults := faults + 1; }
    }

    method Enqueue(id: Uuid, recipient: string) returns (reply: Host)
      modifies this`clock, this`faults, this`log
      ensures reply == env.enqueue(old(clock), id)
      ensures View() == Tick(old(View())).(
                faults := old(faults) + if reply.CutOff? then 1 else 0,
                log := if reply == Yes || reply == CutOff(true)
                       then old(log) + [Sent(id, plan.channel == "sms", recipient)]
                       else old(log))
    {
      reply := env.enqueue(clock, id);
      clock := clock + 1;
      if reply.CutOff? { faults := faults + 1; }
      if reply == Yes || reply == CutOff(true) { log := log + [Sent(id, plan.channel == "sms", recipient)]; }
    }

    // ── one receipt ──

    method EnqueueReceipt(a: Attendee, recipient: string) returns (ok: bool)
      modifies this`clock, this`faults, this`receipts, this`log, this`error, this`tally
      ensures (View(), ok) == EnqueueOne(old(View()), a, recipient, env)
    {
      var reply := Enqueue(a.id, recipient);
      match reply {
        case CutOff(_) => return false;
        case No(_) =>
          ok := RecordFailure(if plan.channel == "sms" then SmsEnqueueRefused else EnqueueRefused);
        case Yes =>
          ok := MarkReceipt(a.id, Queued);
          if !ok { return; }
          tally := if plan.channel == "sms" then tally.(smsQueued := tally.smsQueued + 1)
                   else tally.(queued := tally.queued + 1);
      }
    }

    method WalkReceipt(a: Attendee) returns (ok: bool)
      modifies this`clock, this`faults, this`receipts, this`log, this`error, this`tally
      ensures (View(), ok) == WalkOne(old(View()), a, env)
    {
      hide EnqueueOne, Recipient;
      if plan.dateEnd <= env.at(clock) {
        ok := MarkReceipt(a.id, DroppedWindowClosed);
        if ok { tally := tally.(dropped := tally.dropped + 1); }
        return;
      }
      var rendered := Render(a.id);
      match rendered {
        case CutOff(_) => return false;
        case No(kind) =>
          ok := RecordFailure(kind);
          return;
        case Yes =>
      }
      var to := Recipient(plan.channel, a);
      if to == None {
        ok := RecordFailure(RecipientInvalid);
      } else {
        ok := EnqueueReceipt(a, to.value);
      }
    }

    // ── the receipt loop ──

    /** Either few receipts, all in `stuck`, may refuse, or the window shuts at operation `shut`;
        `trips` is any number of rounds above the measure. */
    method WalkReceipts(ghost stuck: set<Uuid>, ghost shut: nat, ghost trips: nat) returns (e: Ended)
      requires Valid() && MustEnd(View(), batch, env, stuck, shut) && trips > TripsLeft(View(), shut)
      modifies this`clock, this`faults, this`receipts, this`log, this`error, this`tally
      ensures e != More && (View(), e) == Rounds(old(View()), trips, batch, env)
    {
      hide DueReceipts, WalkOne, MustEnd, TripsLeft, DistinctIds, OnlySettles;
      ghost var left := trips;
      while true
        invariant Valid() && MustEnd(View(), batch, env, stuck, shut) && left > TripsLeft(View(), shut)
        invariant Rounds(View(), left, batch, env) == Rounds(old(View()), trips, batch, env)
        decreases left
      {
        ghost var before := View();
        RoundMeasure(before, batch, env, stuck, shut);
        var ok, due := FetchDue(batch);
        if !ok { return Aborted; }
        var i := 0;
        while i < |due|
          invariant 0 <= i <= |due|
          invariant WalkMany(View(), due[i..], env) == WalkMany(DbTick(before, env), due, env)
          invariant attendees == before.attendees
        {
          assert due[i..][1..] == due[i + 1..];
          ok := WalkReceipt(due[i]);
          if !ok { return Aborted; }
          i := i + 1;
        }
        if due == [] || |due| < batch { return Exited; }
        left := left - 1;
      }
    }

    // ── the whole run ──

    method RecomputeMailDone() returns (ok: bool)
      modifies this`clock, this`faults, this`done
      ensures View() == RecomputeDone(old(View()), env)
      ensures ok == !env.db(old(clock)).Fault?
    {
      hide AllSettled;
      var lands;
      ok, lands := Await();
      if lands { done := AllSettled(attendees, receipts); }
    }

    method ClearFailure() returns (ok: bool)
      modifies this`clock, this`faults, this`error
      ensures View() == MailModel.ClearFailure(old(View()), env)
      ensures ok == !env.db(old(clock)).Fault?
    {
      var lands;
      ok, lands := Await();
      if lands { error := None; }
    }

    method Rearm() returns (ok: bool)
      modifies this`clock, this`faults, this`scheduledAt
      ensures View() == MailModel.Rearm(old(View()), env)
      ensures ok == !env.db(old(clock)).Fault?
    {
      var now := env.at(clock);
      var lands;
      ok, lands := Await();
      if lands && !done { scheduledAt := now; }
    }

    /** Completion by receipt truth, then the overflow re-arm. */
    method CloseRun() returns (ok: bool)
      modifies this`clock, this`faults, this`done, this`error, this`scheduledAt, this`tally
      ensures (View(), ok) == Close(old(View()), env)
    {
      hide AllSettled, MissingRows, DueReceipts;
      ok := RecomputeMailDone();
      if !ok { return; }
      if done {
        tally := tally.(completed := tally.completed + 1);
        ok := ClearFailure();
        if !ok { return; }
      }
      var lands, stillDue;
      ok, lands := Await();
      if !ok { return; }
      var unmaterialized := |MissingRows(attendees, receipts)|;
      FetchIgnoresRest(old(View()), View(), env.at(clock));
      ok, stillDue := FetchDue(1);
      if !ok { return; }
      if !done && (unmaterialized > 0 || |stillDue| > 0) {
        ok := Rearm();
        if !ok { return; }
        tally := tally.(rearmed := tally.rearmed + 1);
      }
    }

    lemma FetchIgnoresRest(j: Job, j': Job, now: int)
      requires j.attendees == j'.attendees && j.receipts == j'.receipts
      ensures DueReceipts(j, now, 1) == DueReceipts(j', now, 1)
    {
    }

    method RunOne(ghost stuck: set<Uuid>, ghost shut: nat, ghost trips: nat) returns (ok: bool)
      requires Valid()
      requires var ready := Prepared(View(), batch, env).0;
               MustEnd(ready, batch, env, stuck, shut) && trips > TripsLeft(ready, shut)
      modifies this
      ensures (View(), ok) == MailModel.RunOne(old(View()), trips, batch, env)
    {
      hide Rounds, Close, Materialize, MustEnd, TripsLeft, DistinctIds, OnlySettles;
      if plan.templateRef == None {
        ok := RecordFailure(TemplateUnresolved);
        return;
      }
      MaterializeKeepsRow(View(), batch, env);
      ok := MaterializeReceipts();
      if !ok { return; }
      var lands;
      ok, lands := Await();
      if !ok { return; }
      var e := WalkReceipts(stuck, shut, trips);
      if e != Exited { return false; }
      ok := CloseRun();
    }
  }
}
