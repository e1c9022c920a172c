/** Completion and re-arm, and how many passes a row takes. */
module MailPasses {
  import opened Wrappers
  import opened Text
  import opened Sets
  import opened MailModel
  import opened MailWalk
  import opened MailLaws
  import MailColumns

  // ── the close ──

  lemma {:induction false} MissingIsUnsettled(attendees: seq<Attendee>, receipts: map<Uuid, Receipt>)
    ensures AllSettled(attendees, receipts) ==> MissingRows(attendees, receipts) == []
  {
    if attendees != [] {
      hide Eligible;
      if AllSettled(attendees, receipts) {
        assert Eligible(attendees[0]) ==> Settled(receipts, attendees[0].id);
        forall i | 0 <= i < |attendees[1..]| && Eligible(attendees[1..][i])
            ensures Settled(receipts, attendees[1..][i].id) {
          assert attendees[1..][i] == attendees[i + 1];
        }
      }
      MissingIsUnsettled(attendees[1..], receipts);
    }
  }

  lemma {:induction false} DueIsUnsettled(attendees: seq<Attendee>, receipts: map<Uuid, Receipt>, now: int)
    ensures AllSettled(attendees, receipts) ==> DueRows(attendees, receipts, now) == []
  {
    if attendees != [] {
      hide Eligible;
      if AllSettled(attendees, receipts) {
        assert Eligible(attendees[0]) ==> Settled(receipts, attendees[0].id);
        forall i | 0 <= i < |attendees[1..]| && Eligible(attendees[1..][i])
            ensures Settled(receipts, attendees[1..][i].id) {
          assert attendees[1..][i] == attendees[i + 1];
        }
      }
      DueIsUnsettled(attendees[1..], receipts, now);
    }
  }

  /** Work a next pass could do at once: an eligible registration without a receipt, or a due one unsent. */
  ghost predicate WorkLeft(j: Job, now: int) {
    MissingRows(j.attendees, j.receipts) != [] || DueRows(j.attendees, j.receipts, now) != []
  }

  /** Looked at the moment t: re-armed for the next moment if and only if work was left. */
  ghost predicate RearmedIffWork(j: Job, j': Job, env: Env, t: nat) {
    && j'.tally.rearmed == j.tally.rearmed + (if WorkLeft(j, env.at(t)) then 1 else 0)
    && (WorkLeft(j, env.at(t)) ==> !j'.done && j'.scheduledAt == env.at(t + 1))
    && (j'.done ==> !WorkLeft(j, env.at(t)))
  }

  /**
   RECEIPT TRUTH AND RE-ARM. A close that runs to its end sets `done` exactly when every
   eligible registration has a sent or dropped receipt, and re-arms the row exactly when
   work is left at the moment it looks; never both.
   */
  lemma CloseRearmsIffWorkLeft(j: Job, env: Env)
    requires Close(j, env).1
    ensures var j' := Close(j, env).0;
            && (j'.done <==> AllSettled(j.attendees, j.receipts))
            && j'.tally.completed == j.tally.completed + (if j'.done then 1 else 0)
            && exists t: nat :: j.clock < t < j'.clock && RearmedIffWork(j, j', env, t)
  {
    var t := j.clock + (if AllSettled(j.attendees, j.receipts) then 3 else 2);
    MissingIsUnsettled(j.attendees, j.receipts);
    DueIsUnsettled(j.attendees, j.receipts, env.at(t));
    DueRowsFacts(j.attendees, j.receipts, env.at(t));
    hide AllSettled, MissingRows, DueRows;
    assert |DueReceipts(j, env.at(t), 1)| > 0 <==> DueRows(j.attendees, j.receipts, env.at(t)) != [];
    assert RearmedIffWork(j, Close(j, env).0, env, t);
    assert j.clock < t < Close(j, env).0.clock;
  }

  /** The claim: not done, due, the event not cancelled, and some eligible registration without a
      sent receipt. */
  predicate Claimable(j: Job, now: int) {
    !j.plan.cancelled && !j.done && j.scheduledAt <= now && !AllSettled(j.attendees, j.receipts)
  }

  /** WHO CLAIMS: a row is claimed while its event is on, it is not done and its date has come, as long as somebody
      taking part has no receipt that is sent. */
  lemma ClaimableIs(j: Job, now: int)
    ensures Claimable(j, now)
       <==> j.plan.cancelled == false && j.done == false && j.scheduledAt <= now
            && exists a :: a in j.attendees && MailColumns.TakesPart(a)
                           && !(a.id in j.receipts && j.receipts[a.id].sent)
  {
    MailColumns.SettledIs(j);
    hide AllSettled, MailColumns.TakesPart;
  }

  /** What a close that runs to its end leaves of a failure: nothing once the row is done, what it was otherwise; it
      touches no receipt and sends nothing. */
  lemma CloseClears(j: Job, env: Env)
    requires Close(j, env).1
    ensures var j' := Close(j, env).0;
            && j'.error == (if j'.done then None else j.error)
            && j'.receipts == j.receipts && j'.log == j.log
            && j'.tally.failures == j.tally.failures
  {
    hide AllSettled, MissingRows, DueReceipts;
  }

  /** A row without a template fails so and stays as it was, claimed again at the next pass. */
  lemma WithoutTemplate(j: Job, trips: nat, batch: nat, env: Env)
    requires j.plan.templateRef == None && env.db(j.clock) == Fine
    ensures RunOne(j, trips, batch, env)
         == (j.(error := Some(TemplateUnresolved), clock := j.clock + 1,
                tally := j.tally.(failures := j.tally.failures + 1)), true)
  {
  }

  /** NEVER WEDGED. A claimed row that is run to the end, template or no template, whatever
      was refused, is done with everybody settled or claimable at every later moment. */
  lemma NeverWedged(j: Job, trips: nat, batch: nat, env: Env, now: int, later: int)
    requires Claimable(j, now) && now <= later && forall t :: env.at(t) <= later
    requires RunOne(j, trips, batch, env).1
    ensures var j' := RunOne(j, trips, batch, env).0;
            if j'.done then AllSettled(j'.attendees, j'.receipts) else Claimable(j', later)
  {
    if j.plan.templateRef != None {
      hide Rounds, Materialize, Close, AllSettled;
      MaterializeKeepsRow(j, batch, env);
      var ready := Prepared(j, batch, env).0;
      RoundsKeepKeys(ready, trips, batch, env);
      var walked := Rounds(ready, trips, batch, env).0;
      CloseRearmsIffWorkLeft(walked, env);
      CloseKeepsRecord(walked, env);
      CloseKeepsAttendees(walked, env);
      CloseSchedules(walked, env);
    } else {
      hide AllSettled;
    }
  }

  lemma CloseSchedules(j: Job, env: Env)
    ensures Close(j, env).0.scheduledAt == j.scheduledAt || exists t: nat :: Close(j, env).0.scheduledAt == env.at(t)
  {
    hide AllSettled, MissingRows, DueReceipts;
  }

  // ── accepting passes ──

  /** Due from here on, whatever the clock. */
  ghost predicate DueFrom(env: Env, from: nat, due: Option<int>) {
    due.Some? ==> forall t :: t >= from ==> due.value <= env.at(t)
  }

  /** Ports that take everything, a live template, and every eligible registration due from here on:
      those without a receipt by their creation, those with an unsent one by its date. */
  ghost predicate Accepting(j: Job, env: Env) {
    && CrashFree(env) && j.plan.templateRef != None && DistinctIds(j.attendees)
    && (forall a :: a in j.attendees ==> Willing(env, j.plan.channel, a))
    && (forall a :: a in j.attendees ==> DueFrom(env, j.clock, NewReceipt(a, j.plan.delay).due))
    && (forall a :: a in j.attendees && Eligible(a) && a.id in j.receipts && !j.receipts[a.id].sent ==>
          DueFrom(env, j.clock, j.receipts[a.id].due))
  }

  /** Every eligible registration with a receipt has had it sent or dropped. */
  ghost predicate Served(j: Job) {
    forall a :: a in j.attendees && Eligible(a) && a.id in j.receipts ==> j.receipts[a.id].sent
  }

  function WithoutIds(rows: seq<Attendee>, ids: set<Uuid>): (s: seq<Attendee>) {
    if rows == [] then []
    else (if rows[0].id in ids then [] else [rows[0]]) + WithoutIds(rows[1..], ids)
  }

  lemma {:induction false} MissingIsWithout(attendees: seq<Attendee>, receipts: map<Uuid, Receipt>,
                                            more: map<Uuid, Receipt>, ids: set<Uuid>)
    requires more.Keys == receipts.Keys + ids
    ensures MissingRows(attendees, more) == WithoutIds(MissingRows(attendees, receipts), ids)
  {
    if attendees != [] {
      hide Eligible;
      MissingIsWithout(attendees[1..], receipts, more, ids);
      var q := MissingRows(attendees[1..], receipts);
      if Eligible(attendees[0]) && attendees[0].id !in receipts {
        assert MissingRows(attendees, receipts) == [attendees[0]] + q;
        assert attendees[0].id in more <==> attendees[0].id in ids;
      } else {
        assert MissingRows(attendees, receipts) == q;
      }
    }
  }

  lemma {:induction false} WithoutNone(b: seq<Attendee>, ids: set<Uuid>)
    requires forall r :: r in b ==> r.id !in ids
    ensures WithoutIds(b, ids) == b
  {
    if b != [] { WithoutNone(b[1..], ids); }
  }

  lemma {:induction false} WithoutPrefix(a: seq<Attendee>, b: seq<Attendee>, ids: set<Uuid>)
    requires forall r :: r in a ==> r.id in ids
    ensures WithoutIds(a + b, ids) == WithoutIds(b, ids)
    decreases |a|
  {
    if a != [] {
      assert (a + b)[1..] == a[1..] + b;
      WithoutPrefix(a[1..], b, ids);
    } else {
      assert a + b == b;
    }
  }

  lemma LaterIsOther(m: seq<Attendee>, k: nat, r: Attendee)
    requires DistinctIds(m) && k <= |m| && r in m[k..]
    ensures r.id !in AttendeeIds(m[..k])
  {
    var n :| k <= n < |m| && m[n] == r;
    forall a | a in m[..k] ensures a.id != r.id {
      var i :| 0 <= i < k && m[i] == a;
    }
  }

  lemma WithoutFirst(m: seq<Attendee>, k: nat)
    requires DistinctIds(m) && k <= |m|
    ensures WithoutIds(m, AttendeeIds(m[..k])) == m[k..]
  {
    hide DistinctIds, AttendeeIds, WithoutIds;
    forall r | r in m[k..] ensures r.id !in AttendeeIds(m[..k]) { LaterIsOther(m, k, r); }
    forall r | r in m[..k] ensures r.id in AttendeeIds(m[..k]) { IdOfRow(m[..k], r); }
    WithoutPrefix(m[..k], m[k..], AttendeeIds(m[..k]));
    WithoutNone(m[k..], AttendeeIds(m[..k]));
    assert m[..k] + m[k..] == m;
  }

  lemma IdOfRow(rows: seq<Attendee>, r: Attendee)
    requires r in rows
    ensures r.id in AttendeeIds(rows)
  {
  }

  lemma MissingAfterMaterialize(j: Job, batch: nat, env: Env)
    requires CrashFree(env) && DistinctIds(j.attendees)
    ensures var m := MissingRows(j.attendees, j.receipts);
            var rows := Take(m, batch);
            var j' := Materialize(j, batch, env);
            && MissingRows(j'.attendees, j'.receipts) == m[|rows|..]
            && j'.receipts == WithReceipts(j.receipts, rows, j.plan.delay)
            && DistinctIds(rows)
            && j'.receipts.Keys == j.receipts.Keys + AttendeeIds(rows)
  {
    hide MissingRows, WithReceipts, AttendeeIds;
    var m := MissingRows(j.attendees, j.receipts);
    var rows := Take(m, batch);
    MissingFacts(j.attendees, j.receipts);
    assert rows == m[..|rows|];
    WithReceiptsFacts(j.receipts, rows, j.plan.delay);
    MissingIsWithout(j.attendees, j.receipts, Materialize(j, batch, env).receipts, AttendeeIds(rows));
    WithoutFirst(m, |rows|);
  }

  lemma {:induction false} MissingSameKeys(attendees: seq<Attendee>, receipts: map<Uuid, Receipt>,
                                           more: map<Uuid, Receipt>)
    requires more.Keys == receipts.Keys
    ensures MissingRows(attendees, more) == MissingRows(attendees, receipts)
  {
    if attendees != [] {
      hide Eligible;
      MissingSameKeys(attendees[1..], receipts, more);
      assert attendees[0].id in more <==> attendees[0].id in receipts;
    }
  }

  /** With everybody served, all are settled exactly when nobody is missing. */
  lemma SettledIffNobodyMissing(j: Job)
    requires Served(j)
    ensures AllSettled(j.attendees, j.receipts) <==> MissingRows(j.attendees, j.receipts) == []
  {
    MissingFacts(j.attendees, j.receipts);
    MissingIsUnsettled(j.attendees, j.receipts);
    hide Eligible, MissingRows;
    if MissingRows(j.attendees, j.receipts) == [] {
      forall i | 0 <= i < |j.attendees| && Eligible(j.attendees[i]) ensures Settled(j.receipts, j.attendees[i].id) {
        assert j.attendees[i] !in MissingRows(j.attendees, j.receipts);
      }
    }
  }

  /** What a pass starts its walk from: the first missing rows have receipts, nothing else moved. */
  ghost predicate Readied(j: Job, ready: Job, rows: seq<Attendee>) {
    && ready.attendees == j.attendees && ready.plan == j.plan && ready.clock >= j.clock
    && ready.receipts == WithReceipts(j.receipts, rows, j.plan.delay)
    && DistinctIds(rows) && (forall a :: a in rows ==> a in j.attendees && Eligible(a))
  }

  lemma PreparedIsReadied(j: Job, batch: nat, env: Env)
    requires CrashFree(env) && DistinctIds(j.attendees)
    ensures var (ready, ok) := Prepared(j, batch, env);
            var rows := Take(MissingRows(j.attendees, j.receipts), batch);
            && ok && Readied(j, ready, rows)
            && ready.tally.rearmed == j.tally.rearmed
            && MissingRows(ready.attendees, ready.receipts) == MissingRows(j.attendees, j.receipts)[|rows|..]
  {
    hide MissingRows, WithReceipts, Eligible, AttendeeIds;
    var m := MissingRows(j.attendees, j.receipts);
    var rows := Take(m, batch);
    MissingFacts(j.attendees, j.receipts);
    assert forall a :: a in rows ==> a in m;
    MissingAfterMaterialize(j, batch, env);
    hide DistinctIds;
  }

  /** Whoever has an unsent receipt then is due from there on. */
  lemma ReadiedIsDue(j: Job, ready: Job, rows: seq<Attendee>, env: Env, a: Attendee)
    requires Accepting(j, env) && Readied(j, ready, rows)
    requires a in j.attendees && Eligible(a) && a.id in ready.receipts && !ready.receipts[a.id].sent
    ensures DueFrom(env, j.clock, ready.receipts[a.id].due)
  {
    hide Eligible, WithReceipts, Willing, CrashFree, DistinctIds, DueFrom;
    WithReceiptsFacts(j.receipts, rows, j.plan.delay);
    if a.id in AttendeeIds(rows) {
      var b :| b in rows && b.id == a.id;
      assert ready.receipts[a.id] == NewReceipt(b, j.plan.delay);
    }
  }

  lemma EligibleIsServed(j: Job, ready: Job, walked: Job, rows: seq<Attendee>, env: Env, a: Attendee)
    requires Accepting(j, env) && Readied(j, ready, rows) && SameRow(ready, walked) && OnlySettles(ready, walked)
    requires OnlyStuckLeft(ready, ready.clock, walked, env, {})
    requires a in j.attendees && Eligible(a) && a.id in walked.receipts
    ensures walked.receipts[a.id].sent
  {
    if !ready.receipts[a.id].sent { ReadiedIsDue(j, ready, rows, env, a); }
    hide Accepting, Eligible, WithReceipts, DistinctIds;
    var t: nat :| ready.clock <= t < walked.clock && StuckLeftAt(walked, env.at(t), {});
    assert !DueNow(walked.receipts, a, env.at(t));
  }

  /** A walk through accepting ports serves everybody eligible and leaves no more unsent receipts
      than the pass found. */
  lemma WalkServesAll(j: Job, ready: Job, walked: Job, rows: seq<Attendee>, env: Env)
    requires Accepting(j, env) && Readied(j, ready, rows) && SameRow(ready, walked) && OnlySettles(ready, walked)
    requires OnlyStuckLeft(ready, ready.clock, walked, env, {})
    ensures Served(walked) && |Unsent(walked)| <= |Unsent(j)|
  {
    forall a | a in walked.attendees && Eligible(a) && a.id in walked.receipts ensures walked.receipts[a.id].sent {
      EligibleIsServed(j, ready, walked, rows, env, a);
    }
    hide Accepting, OnlyStuckLeft, Eligible, WithReceipts;
    WithReceiptsFacts(j.receipts, rows, j.plan.delay);
    forall id | id in Unsent(walked) ensures id in Unsent(j) {
      if id in AttendeeIds(rows) { FreshIsSent(walked, rows, id); }
    }
    SubsetSize(Unsent(walked), Unsent(j));
  }

  lemma FreshIsSent(walked: Job, rows: seq<Attendee>, id: Uuid)
    requires Served(walked) && id in AttendeeIds(rows) && id in walked.receipts
    requires forall a :: a in rows ==> a in walked.attendees && Eligible(a)
    ensures walked.receipts[id].sent
  {
    hide Eligible;
    var a :| a in rows && a.id == id;
  }

  lemma ReadiedUnsent(j: Job, ready: Job, rows: seq<Attendee>, batch: nat)
    requires Readied(j, ready, rows) && |rows| <= batch
    ensures |Unsent(ready)| <= batch + |Unsent(j)|
  {
    hide Eligible, WithReceipts, DistinctIds;
    WithReceiptsFacts(j.receipts, rows, j.plan.delay);
    IdCount(rows);
    SubsetSize(Unsent(ready), AttendeeIds(rows) + Unsent(j));
    assert |AttendeeIds(rows) + Unsent(j)| <= |AttendeeIds(rows)| + |Unsent(j)|;
  }

  /** One pass through accepting ports: the first `batch` missing registrations and everybody with an
      unsent receipt are served, and the row is done or re-armed. */
  lemma PassServesABatch(j: Job, trips: nat, batch: nat, env: Env)
    requires batch > 0 && Accepting(j, env) && trips > batch + |Unsent(j)|
    ensures var m := MissingRows(j.attendees, j.receipts);
            var (j', ok) := RunOne(j, trips, batch, env);
            && ok
            && Accepting(j', env) && Served(j') && |Unsent(j')| <= |Unsent(j)|
            && MissingRows(j'.attendees, j'.receipts) == m[|Take(m, batch)|..]
            && (j'.done <==> |m| <= batch)
            && j'.tally.rearmed == j.tally.rearmed + (if j'.done then 0 else 1)
  {
    hide Rounds, Materialize, Close, MissingRows, WithReceipts, Eligible, Willing, AllSettled, Prepared, Unsent,
        DueFrom;
    var m := MissingRows(j.attendees, j.receipts);
    var rows := Take(m, batch);
    PreparedIsReadied(j, batch, env);
    var ready := Prepared(j, batch, env).0;
    ReadiedUnsent(j, ready, rows, batch);
    hide Readied;
    var walked := Rounds(ready, trips, batch, env).0;
    AcceptingWalkExits(j, ready, rows, trips, batch, env);
    WalkServesAll(j, ready, walked, rows, env);
    MissingSameKeys(j.attendees, ready.receipts, walked.receipts);
    SettledIffNobodyMissing(walked);
    RoundsKeepTally(ready, trips, batch, env);
    FinishPass(walked, env);
    CloseKeepsRecord(walked, env);
    CloseKeepsAttendees(walked, env);
    SameUnsent(walked, Close(walked, env).0);
    StillAccepting(j, walked, Close(walked, env).0, env);
  }

  lemma SameUnsent(j: Job, j': Job)
    requires j'.receipts == j.receipts
    ensures Unsent(j') == Unsent(j)
  {
  }

  /** Served, a row goes on accepting at every later moment. */
  lemma StillAccepting(j: Job, walked: Job, closed: Job, env: Env)
    requires Accepting(j, env) && Served(walked)
    requires closed.attendees == j.attendees == walked.attendees && closed.plan == j.plan && closed.clock >= j.clock
    requires closed.receipts == walked.receipts
    ensures Accepting(closed, env) && Served(closed)
  {
    hide Eligible, Willing, CrashFree;
  }

  lemma AcceptingWalkExits(j: Job, ready: Job, rows: seq<Attendee>, trips: nat, batch: nat, env: Env)
    requires batch > 0 && Accepting(j, env) && Readied(j, ready, rows) && trips > |Unsent(ready)|
    ensures var (walked, e) := Rounds(ready, trips, batch, env);
            && e == Exited && SameRow(ready, walked) && OnlySettles(ready, walked) && walked.clock >= ready.clock
            && OnlyStuckLeft(ready, ready.clock, walked, env, {})
  {
    hide Rounds, WithReceipts, Eligible, Willing, CrashFree, DueFrom, Unsent, OnlyStuckLeft;
    assert OthersWilling(ready, env, {});
    assert {} * Unsent(ready) == {};
    WalkEnds(ready, trips, batch, env, {}, 0);
    NobodyStarves(ready, trips, batch, env, {});
    RoundsKeepKeys(ready, trips, batch, env);
  }

  lemma UndisturbedClose(j: Job, env: Env)
    requires CrashFree(env)
    ensures Close(j, env).1
  {
    hide AllSettled, MissingRows, DueReceipts;
  }

  lemma FinishPass(j: Job, env: Env)
    requires CrashFree(env) && Served(j)
    requires AllSettled(j.attendees, j.receipts) <==> MissingRows(j.attendees, j.receipts) == []
    ensures var (j', ok) := Close(j, env);
            && ok
            && (j'.done <==> MissingRows(j.attendees, j.receipts) == [])
            && j'.tally.rearmed == j.tally.rearmed + (if j'.done then 0 else 1)
  {
    UndisturbedClose(j, env);
    CloseRearmsIffWorkLeft(j, env);
    hide Close, MissingRows, AllSettled;
    var t: nat :| j.clock < t < Close(j, env).0.clock && RearmedIffWork(j, Close(j, env).0, env, t);
    ServedNothingDue(j.attendees, j.receipts, env.at(t));
    hide DueRows;
  }

  lemma {:induction false} ServedNothingDue(attendees: seq<Attendee>, receipts: map<Uuid, Receipt>, now: int)
    requires forall a :: a in attendees && Eligible(a) && a.id in receipts ==> receipts[a.id].sent
    ensures DueRows(attendees, receipts, now) == []
  {
    if attendees != [] {
      hide Eligible;
      assert attendees[0] in attendees && forall a :: a in attendees[1..] ==> a in attendees;
      ServedNothingDue(attendees[1..], receipts, now);
    }
  }

  lemma WalkOneKeepsRearmed(j: Job, a: Attendee, env: Env)
    ensures WalkOne(j, a, env).0.tally.rearmed == j.tally.rearmed
  {
    hide Recipient;
  }

  lemma {:induction false} WalkManyKeepsRearmed(j: Job, due: seq<Attendee>, env: Env)
    ensures WalkMany(j, due, env).0.tally.rearmed == j.tally.rearmed
    decreases |due|
  {
    if due != [] {
      hide WalkOne;
      WalkOneKeepsRearmed(j, due[0], env);
      WalkManyKeepsRearmed(WalkOne(j, due[0], env).0, due[1..], env);
    }
  }

  lemma {:induction false} RoundsKeepTally(j: Job, n: nat, batch: nat, env: Env)
    ensures Rounds(j, n, batch, env).0.tally.rearmed == j.tally.rearmed
    decreases n
  {
    if n > 0 {
      hide WalkMany, DueReceipts;
      WalkManyKeepsRearmed(DbTick(j, env), DueReceipts(j, env.at(j.clock), batch), env);
      var (j1, e) := Round(j, batch, env);
      if e == More { RoundsKeepTally(j1, n - 1, batch, env); }
    }
  }

  // ── pass after pass ──

  function Passes(j: Job, p: nat, trips: nat, batch: nat, env: Env): (r: Job)
    decreases p
  {
    if p == 0 then j else RunOne(Passes(j, p - 1, trips, batch, env), trips, batch, env).0
  }

  /**
   MULTI-PASS COMPLETION. With accepting ports, N eligible registrations yet without a receipt and
   any number with an unsent one, all due: the p-th pass ends done exactly when p * batch >= N, so
   completion comes at pass max(1, ceil(N / batch)); every pass before it re-arms the row.
   */
  lemma {:induction false} PassesComplete(j: Job, p: nat, trips: nat, batch: nat, env: Env)
    requires batch > 0 && Accepting(j, env) && trips > batch + |Unsent(j)|
    ensures var n := |MissingRows(j.attendees, j.receipts)|;
            var j' := Passes(j, p, trips, batch, env);
            && Accepting(j', env) && |Unsent(j')| <= |Unsent(j)| && (p > 0 ==> Served(j'))
            && |MissingRows(j'.attendees, j'.receipts)| == (if n <= p * batch then 0 else n - p * batch)
            && (p > 0 ==> (j'.done <==> n <= p * batch))
            && (p == 0 || (p - 1) * batch < n ==>
                j'.tally.rearmed == j.tally.rearmed + (if p > 0 && j'.done then p - 1 else p))
    decreases p
  {
    hide RunOne, MissingRows, Accepting, Served, Unsent;
    if p > 0 {
      PassesComplete(j, p - 1, trips, batch, env);
      var before := Passes(j, p - 1, trips, batch, env);
      PassServesABatch(before, trips, batch, env);
      assert p * batch == (p - 1) * batch + batch;
      if p >= 2 {
        assert (p - 1) * batch == (p - 2) * batch + batch;
      }
    }
  }

  // ── by hand ──

  /** A row run by hand, done or not, is open again unless it leaves everybody settled. */
  lemma RunByHandReopens(j: Job, trips: nat, batch: nat, env: Env)
    requires j.plan.templateRef != None && RunOne(j, trips, batch, env).1
    ensures var j' := RunOne(j, trips, batch, env).0;
            j'.done <==> AllSettled(j'.attendees, j'.receipts)
  {
    hide Rounds, Prepared, Close, AllSettled;
    var walked := Rounds(Prepared(j, batch, env).0, trips, batch, env).0;
    CloseRearmsIffWorkLeft(walked, env);
    CloseKeepsRecord(walked, env);
    CloseKeepsAttendees(walked, env);
  }
}
