/**
 Whom the mail run considers and where each message goes, in terms of the columns of a registration
 and of its receipt alone.
 */
module MailColumns {
  import opened Wrappers
  import opened Text
  import opened Registrations
  import opened MailModel
  import opened MailWalk
  import opened MailLaws

  /** Open or done, and active. */
  predicate TakesPart(a: Attendee) {
    a.active && a.state in {Open, Done}
  }

  // ── the fetch ──

  /** Unsent, and due: unscheduled, or scheduled no later than now. */
  predicate Waits(j: Job, a: Attendee, now: int) {
    && a.id in j.receipts && j.receipts[a.id].sent == false
    && match j.receipts[a.id].due case None => true case Some(t) => t <= now
  }

  /** The unscheduled first, then by due date; ids decide within a tie. */
  ghost predicate Earlier(j: Job, a: Attendee, b: Attendee)
    requires a.id in j.receipts && b.id in j.receipts
  {
    match j.receipts[a.id].due
    case None => j.receipts[b.id].due.Some? || a.id <= b.id
    case Some(t) =>
      match j.receipts[b.id].due
      case None => false
      case Some(u) => t < u || (t == u && a.id <= b.id)
  }

  ghost predicate InOrder(j: Job, rows: seq<Attendee>) {
    && (forall a :: a in rows ==> a.id in j.receipts)
    && forall i, k :: 0 <= i < k < |rows| ==> Earlier(j, rows[i], rows[k])
  }

  lemma EarlierIsWalksBefore(j: Job, a: Attendee, b: Attendee)
    requires a.id in j.receipts && b.id in j.receipts
    ensures if WalksBefore(j.receipts, a, b) then Earlier(j, a, b) else Earlier(j, b, a)
  {
  }

  lemma EarlierTransitive(j: Job, a: Attendee, b: Attendee, c: Attendee)
    requires a.id in j.receipts && b.id in j.receipts && c.id in j.receipts && Earlier(j, a, b) && Earlier(j, b, c)
    ensures Earlier(j, a, c)
  {
  }

  lemma {:induction false} InsertKeepsOrder(j: Job, a: Attendee, s: seq<Attendee>)
    requires a.id in j.receipts && InOrder(j, s)
    ensures InOrder(j, InsertDue(j.receipts, a, s))
  {
    if s != [] {
      hide Earlier, WalksBefore;
      EarlierIsWalksBefore(j, a, s[0]);
      assert s == [s[0]] + s[1..];
      if WalksBefore(j.receipts, a, s[0]) {
        forall k | 1 <= k < |s| ensures Earlier(j, a, s[k]) { EarlierTransitive(j, a, s[0], s[k]); }
      } else {
        InsertKeepsOrder(j, a, s[1..]);
        var r := InsertDue(j.receipts, a, s[1..]);
        forall k | 0 <= k < |r| ensures Earlier(j, s[0], r[k]) {
          assert r[k] in r;
          if r[k] != a {
            var i :| 0 <= i < |s[1..]| && s[1..][i] == r[k];
            assert s[i + 1] == r[k];
          }
        }
      }
    }
  }

  lemma {:induction false} SortOrders(j: Job, s: seq<Attendee>)
    requires forall b :: b in s ==> b.id in j.receipts
    ensures InOrder(j, SortDue(j.receipts, s))
  {
    if s != [] {
      hide InOrder;
      assert s == [s[0]] + s[1..];
      SortOrders(j, s[1..]);
      InsertKeepsOrder(j, s[0], SortDue(j.receipts, s[1..]));
    }
  }

  /** A FETCH IN ORDER: of the waiting receipts of those taking part, the first `limit`, the unscheduled first, then by
      due date, then by id. */
  lemma FetchInOrder(j: Job, now: int, limit: nat)
    requires DistinctIds(j.attendees)
    ensures var due := DueReceipts(j, now, limit);
            && InOrder(j, due) && |due| <= limit
            && (forall a :: a in due ==> a in j.attendees && TakesPart(a) && Waits(j, a, now))
            && (forall a :: a in j.attendees && TakesPart(a) && Waits(j, a, now) && a !in due ==>
                  |due| == limit && forall b :: b in due ==> b.id in j.receipts && Earlier(j, b, a))
  {
    var rows := DueRows(j.attendees, j.receipts, now);
    DueRowsFacts(j.attendees, j.receipts, now);
    forall a ensures DueNow(j.receipts, a, now) <==> TakesPart(a) && Waits(j, a, now) {}
    hide DueNow, TakesPart, Waits, Earlier;
    SortOrders(j, rows);
    var all := SortDue(j.receipts, rows);
    forall a, b | a in all && a !in Take(all, limit) && b in Take(all, limit)
      ensures |all| > limit && b.id in j.receipts && Earlier(j, b, a)
    {
      var i :| 0 <= i < |all| && all[i] == a;
      var k :| 0 <= k < |Take(all, limit)| && Take(all, limit)[k] == b;
      InTake(all, limit, i);
    }
  }

  // ── receipts made, rows done ──

  /** WHO IS STILL WITHOUT A RECEIPT, in the order of the registrations. */
  lemma MissingIs(attendees: seq<Attendee>, receipts: map<Uuid, Receipt>)
    ensures var rows := MissingRows(attendees, receipts);
            && (forall a :: a in rows <==> a in attendees && TakesPart(a) && a.id !in receipts)
            && (InIdOrder(attendees) ==> InIdOrder(rows))
  {
    forall a ensures TakesPart(a) <==> Eligible(a) {}
    hide TakesPart, Eligible, MissingRows, InIdOrder;
    MissingFacts(attendees, receipts);
    if InIdOrder(attendees) { MissingInOrder(attendees, receipts); }
  }

  lemma OrderOfTail(rows: seq<Attendee>)
    requires rows != [] && InIdOrder(rows)
    ensures InIdOrder(rows[1..]) && forall a :: a in rows[1..] ==> rows[0].id < a.id
  {
    var rest := rows[1..];
    forall i, k | 0 <= i < k < |rest| ensures rest[i].id < rest[k].id {
      assert rest[i] == rows[i + 1] && rest[k] == rows[k + 1];
    }
    forall a | a in rest ensures rows[0].id < a.id {
      var i :| 0 <= i < |rest| && rest[i] == a;
      assert rows[i + 1] == a;
    }
  }

  lemma OrderOfCons(a: Attendee, rows: seq<Attendee>)
    requires InIdOrder(rows) && forall b :: b in rows ==> a.id < b.id
    ensures InIdOrder([a] + rows)
  {
  }

  lemma {:induction false} MissingInOrder(attendees: seq<Attendee>, receipts: map<Uuid, Receipt>)
    requires InIdOrder(attendees)
    ensures InIdOrder(MissingRows(attendees, receipts))
  {
    if attendees != [] {
      hide Eligible, InIdOrder;
      OrderOfTail(attendees);
      MissingInOrder(attendees[1..], receipts);
      MissingFacts(attendees[1..], receipts);
      OrderOfCons(attendees[0], MissingRows(attendees[1..], receipts));
      assert [] + MissingRows(attendees[1..], receipts) == MissingRows(attendees[1..], receipts);
    }
  }

  ghost predicate InIdOrder(rows: seq<Attendee>) {
    forall i, k :: 0 <= i < k < |rows| ==> rows[i].id < rows[k].id
  }

  /** The first `batch` of those without a receipt get one: unsent, due `delay` after their creation, or at once
      if that is unknown; no other receipt is touched. */
  lemma ReceiptsMade(j: Job, batch: nat, env: Env)
    requires DistinctIds(j.attendees) && env.db(j.clock) == Fine
    ensures var rows := Take(MissingRows(j.attendees, j.receipts), batch);
            var j' := Materialize(j, batch, env);
            && (forall id :: id in j'.receipts <==> id in j.receipts || exists a :: a in rows && a.id == id)
            && (forall id :: id in j.receipts ==> id in j'.receipts && j'.receipts[id] == j.receipts[id])
            && (forall a :: a in rows ==> a.id in j'.receipts && BornRight(j, a, j'.receipts[a.id]))
            && j'.tally.materialized == j.tally.materialized + |rows|
  {
    MissingTaken(j, batch);
    hide DistinctIds, MissingRows, WithReceipts, BornRight, Take, AttendeeIds;
    MadeReceipts(j, Take(MissingRows(j.attendees, j.receipts), batch));
  }

  lemma MadeReceipts(j: Job, rows: seq<Attendee>)
    requires DistinctIds(rows) && forall id :: id in AttendeeIds(rows) ==> id !in j.receipts
    ensures var m := WithReceipts(j.receipts, rows, j.plan.delay);
            && (forall id :: id in m <==> id in j.receipts || exists a :: a in rows && a.id == id)
            && (forall id :: id in j.receipts ==> id in m && m[id] == j.receipts[id])
            && (forall a :: a in rows ==> a.id in m && BornRight(j, a, m[a.id]))
  {
    hide WithReceipts, DistinctIds;
    WithReceiptsFacts(j.receipts, rows, j.plan.delay);
    RowIds(rows);
    hide AttendeeIds;
  }

  lemma RowIds(rows: seq<Attendee>)
    ensures forall id :: id in AttendeeIds(rows) <==> exists a :: a in rows && a.id == id
  {
  }

  /** Unsent, and due after the row's delay if the registration's creation is known. */
  predicate BornRight(j: Job, a: Attendee, r: Receipt) {
    !r.sent && r.outcome == None
    && match a.createdAt case None => r.due == None case Some(t) => r.due == Some(t + j.plan.delay)
  }

  /** A ROW IS SETTLED exactly when everybody taking part has a receipt that is sent. */
  lemma SettledIs(j: Job)
    ensures AllSettled(j.attendees, j.receipts)
       <==> forall a :: a in j.attendees && TakesPart(a) ==> a.id in j.receipts && j.receipts[a.id].sent
  {
    forall a ensures TakesPart(a) <==> Eligible(a) {}
    hide TakesPart, Eligible;
    assert forall i :: 0 <= i < |j.attendees| ==> j.attendees[i] in j.attendees;
  }

  // ── where a message goes ──

  /** No telephone number but white space, or no address with an at sign. */
  ghost predicate Unaddressable(channel: string, a: Attendee) {
    if channel == "sms" then a.phone == None || Blank(a.phone.value) else '@' !in a.email
  }

  /** A text message to the registration's own number, or a mail to its own address. */
  ghost predicate Addressed(n: Note, channel: string, a: Attendee) {
    && n.Sent? && n.id == a.id && (n.sms <==> channel == "sms")
    && if n.sms then a.phone.Some? && Bare(a.phone.value, n.recipient) && n.recipient != ""
       else n.recipient == a.email && '@' in a.email
  }

  lemma RecipientIs(channel: string, a: Attendee)
    ensures Recipient(channel, a) == None <==> Unaddressable(channel, a)
    ensures Recipient(channel, a).Some? ==>
        Addressed(Sent(a.id, channel == "sms", Recipient(channel, a).value), channel, a)
  {
    hide Trim, Bare, IsSpace;
    var phone := if a.phone.Some? then a.phone.value else "";
    TrimIsBare(phone);
    TrimEmptyIffBlank(phone);
  }

  /** What a turn may add to the log: nothing, a drop once the window is shut, or one addressed message. */
  ghost predicate TurnAdds(j: Job, j': Job, a: Attendee, env: Env) {
    || j'.log == j.log
    || (j'.log == j.log + [Dropped(a.id)] && j.plan.dateEnd <= env.at(j.clock))
    || (|j'.log| == |j.log| + 1 && j'.log[..|j.log|] == j.log && env.at(j.clock) < j.plan.dateEnd
        && Addressed(j'.log[|j.log|], j.plan.channel, a))
  }

  /** EVERY TURN ADDRESSES ITS OWN. */
  lemma TurnAddresses(j: Job, a: Attendee, env: Env)
    ensures TurnAdds(j, WalkOne(j, a, env).0, a, env)
  {
    RecipientIs(j.plan.channel, a);
    hide Recipient, Addressed, Unaddressable;
  }

  /**
   HOW A TURN ENDS, with the database answering and nobody cut off: dropped when the window is shut; otherwise as
   the renderer failed; otherwise without an address if and only if the channel's column holds none; otherwise as the
   channel's queue says.
   */
  lemma TurnEnds(j: Job, a: Attendee, env: Env)
    requires CrashFree(env) && a.id in j.receipts && !j.receipts[a.id].sent
    ensures var j' := WalkOne(j, a, env).0;
            var receipt, sms := j.receipts[a.id], j.plan.channel == "sms";
            var failed := j'.receipts == j.receipts && j'.log == j.log
                          && j'.tally == j.tally.(failures := j.tally.failures + 1);
            if j.plan.dateEnd <= env.at(j.clock) then
              j'.receipts == j.receipts[a.id := receipt.(sent := true, outcome := Some(DroppedWindowClosed))]
              && j'.tally == j.tally.(dropped := j.tally.dropped + 1) && j'.error == j.error
            else if env.render(j.clock, a.id).No? then failed && j'.error == Some(env.render(j.clock, a.id).kind)
            else if Unaddressable(j.plan.channel, a) then failed && j'.error == Some(RecipientInvalid)
            else if env.enqueue(j.clock + 1, a.id).No? then
              failed && j'.error == Some(if sms then SmsEnqueueRefused else EnqueueRefused)
            else
              && j'.receipts == j.receipts[a.id := receipt.(sent := true, outcome := Some(Queued))]
              && |j'.log| == |j.log| + 1 && Addressed(j'.log[|j.log|], j.plan.channel, a) && j'.error == j.error
              && j'.tally == if sms then j.tally.(smsQueued := j.tally.smsQueued + 1)
                             else j.tally.(queued := j.tally.queued + 1)
  {
    RecipientIs(j.plan.channel, a);
    hide Recipient, Addressed, Unaddressable;
  }

  // ── over a walk, a run, a history ──

  /** Every message after the first n notes is addressed to one of the row's registrations. */
  ghost predicate AddressedFrom(j: Job, j': Job, n: nat) {
    && n <= |j'.log|
    && forall k :: n <= k < |j'.log| && j'.log[k].Sent? ==> SomebodysOwn(j, j'.log[k])
  }

  ghost predicate SomebodysOwn(j: Job, n: Note) {
    exists a :: a in j.attendees && Addressed(n, j.plan.channel, a)
  }

  lemma TurnStaysAddressed(j: Job, x: Job, a: Attendee, n: nat, env: Env)
    requires x.attendees == j.attendees && x.plan == j.plan && a in j.attendees && AddressedFrom(j, x, n)
    ensures AddressedFrom(j, WalkOne(x, a, env).0, n)
  {
    TurnAddresses(x, a, env);
    hide WalkOne, Addressed;
    var log := WalkOne(x, a, env).0.log;
    forall k | n <= k < |log| && log[k].Sent? ensures SomebodysOwn(j, log[k]) {
      if k < |x.log| {
        assert log[k] == x.log[k];
      } else {
        assert Addressed(log[k], j.plan.channel, a);
      }
    }
  }

  lemma WalkOneKeepsRow(j: Job, a: Attendee, env: Env)
    ensures SameRow(j, WalkOne(j, a, env).0)
  {
    hide Recipient;
  }

  lemma {:induction false} WalkStaysAddressed(j: Job, x: Job, due: seq<Attendee>, n: nat, env: Env)
    requires x.attendees == j.attendees && x.plan == j.plan && (forall a :: a in due ==> a in j.attendees)
    requires AddressedFrom(j, x, n)
    ensures AddressedFrom(j, WalkMany(x, due, env).0, n)
    decreases |due|
  {
    hide WalkOne, AddressedFrom;
    if due != [] {
      assert due[0] in due && forall a :: a in due[1..] ==> a in due;
      TurnStaysAddressed(j, x, due[0], n, env);
      WalkOneKeepsRow(x, due[0], env);
      WalkStaysAddressed(j, WalkOne(x, due[0], env).0, due[1..], n, env);
    }
  }

  lemma {:induction false} RoundsStayAddressed(j: Job, x: Job, trips: nat, batch: nat, n: nat, env: Env)
    requires x.attendees == j.attendees && x.plan == j.plan && DistinctIds(j.attendees) && AddressedFrom(j, x, n)
    ensures AddressedFrom(j, Rounds(x, trips, batch, env).0, n)
    decreases trips
  {
    hide WalkMany, DueReceipts, DistinctIds, SomebodysOwn;
    if trips > 0 {
      var due := DueReceipts(x, env.at(x.clock), batch);
      FetchFacts(x, env.at(x.clock), batch);
      WalkStaysAddressed(j, DbTick(x, env), due, n, env);
      RoundKeepsKeys(x, batch, env);
      var (x1, e) := Round(x, batch, env);
      assert AddressedFrom(j, x1, n);
      hide Round, AddressedFrom;
      if e == More { RoundsStayAddressed(j, x1, trips - 1, batch, n, env); }
    }
  }

  /** EVERY MESSAGE OF A RUN IS ADDRESSED to a registration of its event, on the row's channel. */
  lemma RunAddresses(j: Job, trips: nat, batch: nat, env: Env)
    requires DistinctIds(j.attendees)
    ensures AddressedFrom(j, RunOne(j, trips, batch, env).0, |j.log|)
  {
    hide Rounds, Materialize, Close, AllSettled, DistinctIds, SomebodysOwn;
    MaterializeKeepsRow(j, batch, env);
    MaterializeKeepsLog(j, batch, env);
    if j.plan.templateRef != None {
      var ready := Prepared(j, batch, env).0;
      RoundsStayAddressed(j, ready, trips, batch, |j.log|, env);
      CloseKeepsRecord(Rounds(ready, trips, batch, env).0, env);
    }
  }

  lemma MaterializeKeepsLog(j: Job, batch: nat, env: Env)
    ensures Materialize(j, batch, env).log == j.log
  {
  }

  /** Step s was a run, of a row whose registrations and channel the message is addressed by. */
  ghost predicate SentByRun(jobs: seq<Job>, actions: seq<Action>, s: nat, n: Note)
    requires |jobs| == |actions| + 1
  {
    s < |actions| && actions[s].Run? && SomebodysOwn(jobs[s], n)
  }

  /**
   EVERY MESSAGE EVER SENT went, over any history of runs and edits, to a registration the row had at the time: a text
   message to its telephone number, bare, or a mail to its address, as the channel then was.
   */
  lemma {:induction false} HistoryAddresses(jobs: seq<Job>, actions: seq<Action>, env: Env, i: nat, k: nat)
    requires IsHistory(jobs, actions, env) && i < |jobs| && k < |jobs[i].log| && jobs[i].log[k].Sent?
    ensures exists s: nat :: s < i && SentByRun(jobs, actions, s, jobs[i].log[k])
  {
    if i > 0 {
      HistoryKeepsInv(jobs, actions, env, i - 1);
      assert Legal(jobs[i - 1], actions[i - 1]) && jobs[i - 1 + 1] == Act(jobs[i - 1], actions[i - 1], env);
      var before := jobs[i - 1];
      hide RunOne, SentByRun, MailInv, SomebodysOwn, DistinctIds;
      StepAddresses(before, actions[i - 1], env, k);
      if k < |before.log| && before.log[k] == jobs[i].log[k] {
        HistoryAddresses(jobs, actions, env, i - 1, k);
      } else {
        assert SentByRun(jobs, actions, i - 1, jobs[i].log[k]) by { SentNow(jobs, actions, i - 1, jobs[i].log[k]); }
      }
      hide IsHistory;
    }
  }

  lemma SentNow(jobs: seq<Job>, actions: seq<Action>, s: nat, n: Note)
    requires |jobs| == |actions| + 1 && s < |actions| && actions[s].Run? && SomebodysOwn(jobs[s], n)
    ensures SentByRun(jobs, actions, s, n)
  {
  }

  lemma StepAddresses(j: Job, a: Action, env: Env, k: nat)
    requires Legal(j, a) && DistinctIds(j.attendees) && k < |Act(j, a, env).log| && Act(j, a, env).log[k].Sent?
    ensures (k < |j.log| && j.log[k] == Act(j, a, env).log[k]) || (a.Run? && SomebodysOwn(j, Act(j, a, env).log[k]))
  {
    LogGrows(j, a, env);
    hide RunOne, SomebodysOwn, DistinctIds;
    if a.Run? { RunAddresses(j, a.trips, a.batch, env); }
  }

  lemma LogGrows(j: Job, a: Action, env: Env)
    requires Legal(j, a)
    ensures j.log <= Act(j, a, env).log
  {
    if a.Run? { RunGrowsLog(j, a.trips, a.batch, env); }
    hide RunOne;
  }

  lemma TurnGrowsLog(j: Job, a: Attendee, env: Env)
    ensures j.log <= WalkOne(j, a, env).0.log
  {
    hide Recipient;
  }

  lemma {:induction false} WalkGrowsLog(j: Job, due: seq<Attendee>, env: Env)
    ensures j.log <= WalkMany(j, due, env).0.log
    decreases |due|
  {
    hide WalkOne;
    if due != [] {
      TurnGrowsLog(j, due[0], env);
      WalkGrowsLog(WalkOne(j, due[0], env).0, due[1..], env);
    }
  }

  lemma {:induction false} RoundsGrowLog(j: Job, trips: nat, batch: nat, env: Env)
    ensures j.log <= Rounds(j, trips, batch, env).0.log
    decreases trips
  {
    hide WalkMany, DueReceipts;
    if trips > 0 {
      WalkGrowsLog(DbTick(j, env), DueReceipts(j, env.at(j.clock), batch), env);
      var (j1, e) := Round(j, batch, env);
      if e == More { RoundsGrowLog(j1, trips - 1, batch, env); }
    }
  }

  lemma RunGrowsLog(j: Job, trips: nat, batch: nat, env: Env)
    ensures j.log <= RunOne(j, trips, batch, env).0.log
  {
    hide Rounds, Materialize, Close;
    MaterializeKeepsLog(j, batch, env);
    if j.plan.templateRef != None {
      var ready := Prepared(j, batch, env).0;
      RoundsGrowLog(ready, trips, batch, env);
      CloseKeepsRecord(Rounds(ready, trips, batch, env).0, env);
    }
  }
}
