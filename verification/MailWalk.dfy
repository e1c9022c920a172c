/** What the receipt walk changes, when it ends, and who it leaves behind. */
module MailWalk {
  import opened Wrappers
  import opened Text
  import opened Registrations
  import opened Sets
  import opened MailModel

  // ── vocabulary ──

  function AttendeeIds(rows: seq<Attendee>): (s: set<Uuid>) {
    set a | a in rows :: a.id
  }

  ghost predicate DistinctIds(rows: seq<Attendee>) {
    forall i, k :: 0 <= i < k < |rows| ==> rows[i].id != rows[k].id
  }

  function Unsent(j: Job): (s: set<Uuid>) {
    set id | id in j.receipts && !j.receipts[id].sent
  }

  /** The registrations a fetch at `now` may return. */
  function DueIds(j: Job, now: int): (s: set<Uuid>) {
    AttendeeIds(DueRows(j.attendees, j.receipts, now))
  }

  /** No database fault and no cut-off port call. */
  ghost predicate CrashFree(env: Env) {
    && (forall t :: env.db(t) == Fine)
    && (forall t, x :: !env.render(t, x).CutOff? && !env.enqueue(t, x).CutOff?)
  }

  /** Whatever the moment, this receipt's turn ends in the queue (or in a drop). */
  ghost predicate Willing(env: Env, channel: string, a: Attendee) {
    Recipient(channel, a).Some? && forall t :: env.render(t, a.id) == Yes && env.enqueue(t, a.id) == Yes
  }

  /** Whatever the moment, this receipt's turn in an open window ends in a recorded failure. */
  ghost predicate Refusing(env: Env, channel: string, a: Attendee) {
    || Recipient(channel, a) == None
    || (forall t :: env.render(t, a.id).No?)
    || (forall t :: env.enqueue(t, a.id).No?)
  }

  /** A clock that never runs back. */
  ghost predicate Monotone(env: Env) {
    forall s, t :: s <= t ==> env.at(s) <= env.at(t)
  }

  /** From the operation `from` on, the clock is at or past the event's end. */
  ghost predicate Shut(env: Env, dateEnd: int, from: nat) {
    forall t :: t >= from ==> dateEnd <= env.at(t)
  }

  /** Only receipts in `stuck` may ever refuse. */
  ghost predicate OthersWilling(j: Job, env: Env, stuck: set<Uuid>) {
    forall a :: a in j.attendees && a.id !in stuck ==> Willing(env, j.plan.channel, a)
  }

  ghost predicate SameRow(j: Job, j': Job) {
    j'.attendees == j.attendees && j'.plan == j.plan && j'.done == j.done && j'.scheduledAt == j.scheduledAt
  }

  /** Receipts only ever go from unsent to sent, keeping their due date. */
  ghost predicate OnlySettles(j: Job, j': Job) {
    && j'.receipts.Keys == j.receipts.Keys
    && forall id :: id in j.receipts ==>
         || j'.receipts[id] == j.receipts[id]
         || (!j.receipts[id].sent && j'.receipts[id].sent && j'.receipts[id].outcome.Some?
             && j'.receipts[id].due == j.receipts[id].due)
  }

  // ── one turn ──

  /** One receipt's turn touches that receipt at most. */
  ghost predicate OwnTurn(j: Job, j': Job, id: Uuid) {
    && SameRow(j, j') && OnlySettles(j, j') && j'.clock > j.clock
    && forall x :: x in j.receipts && x != id ==> j'.receipts[x] == j.receipts[x]
  }

  lemma FailureIsOwnTurn(j: Job, id: Uuid, kind: ErrorKind, env: Env)
    ensures OwnTurn(j, RecordFailure(j, kind, env).0, id)
  {
  }

  lemma MarkIsOwnTurn(j: Job, id: Uuid, outcome: Outcome, env: Env)
    ensures OwnTurn(j, MarkReceipt(j, id, outcome, env), id)
  {
  }

  lemma EnqueueIsOwnTurn(j: Job, a: Attendee, recipient: string, env: Env)
    ensures OwnTurn(j, EnqueueOne(j, a, recipient, env).0, a.id)
    ensures CrashFree(env) ==> EnqueueOne(j, a, recipient, env).1
  {
    var asked := Tick(j);
    var taken := asked.(log := j.log + [Sent(a.id, j.plan.channel == "sms", recipient)]);
    FailureIsOwnTurn(asked, a.id, SmsEnqueueRefused, env);
    FailureIsOwnTurn(asked, a.id, EnqueueRefused, env);
    MarkIsOwnTurn(taken, a.id, Queued, env);
    hide MarkReceipt;
  }

  lemma WalkOneEffect(j: Job, a: Attendee, env: Env)
    ensures var (j', ok) := WalkOne(j, a, env);
            && OwnTurn(j, j', a.id)
            && (CrashFree(env) ==> ok)
  {
    MarkIsOwnTurn(j, a.id, DroppedWindowClosed, env);
    if env.at(j.clock) < j.plan.dateEnd {
      match env.render(j.clock, a.id)
      case CutOff(_) =>
      case No(kind) => FailureIsOwnTurn(Tick(j), a.id, kind, env);
      case Yes =>
        FailureIsOwnTurn(Tick(j), a.id, RecipientInvalid, env);
        var to := Recipient(j.plan.channel, a);
        if to.Some? { EnqueueIsOwnTurn(Tick(j), a, to.value, env); }
        hide Recipient, EnqueueOne;
    } else {
      hide MarkReceipt;
    }
  }

  lemma WillingIsSettled(j: Job, a: Attendee, env: Env)
    requires (Willing(env, j.plan.channel, a) || j.plan.dateEnd <= env.at(j.clock)) && a.id in j.receipts
    requires WalkOne(j, a, env).1
    ensures Settled(WalkOne(j, a, env).0.receipts, a.id)
  {
    hide Recipient;
  }

  lemma RefusingIsUntouched(j: Job, a: Attendee, env: Env)
    requires CrashFree(env) && Refusing(env, j.plan.channel, a) && env.at(j.clock) < j.plan.dateEnd
    ensures WalkOne(j, a, env).0.receipts == j.receipts
  {
    hide Recipient;
  }

  // ── a batch ──

  lemma {:induction false} WalkManyEffect(j: Job, due: seq<Attendee>, env: Env)
    ensures var (j', ok) := WalkMany(j, due, env);
            && SameRow(j, j') && OnlySettles(j, j') && j'.clock >= j.clock
            && (forall id :: id in j.receipts && id !in AttendeeIds(due) ==> j'.receipts[id] == j.receipts[id])
            && (CrashFree(env) ==> ok)
    decreases |due|
  {
    if due != [] {
      hide WalkOne, CrashFree;
      WalkOneEffect(j, due[0], env);
      WalkManyEffect(WalkOne(j, due[0], env).0, due[1..], env);
      assert due[0] in due && forall a :: a in due[1..] ==> a in due;
    }
  }

  lemma {:induction false} WalkManySettles(j: Job, due: seq<Attendee>, env: Env, a: Attendee)
    requires a in due && a.id in j.receipts && (Willing(env, j.plan.channel, a) || Shut(env, j.plan.dateEnd, j.clock))
    requires WalkMany(j, due, env).1
    ensures Settled(WalkMany(j, due, env).0.receipts, a.id)
    decreases |due|
  {
    hide WalkOne, CrashFree, Willing;
    WalkOneEffect(j, due[0], env);
    var j1 := WalkOne(j, due[0], env).0;
    WalkManyEffect(j1, due[1..], env);
    if due[0] == a {
      WillingIsSettled(j, a, env);
    } else {
      assert a in due[1..];
      WalkManySettles(j1, due[1..], env, a);
    }
  }

  lemma {:induction false} WalkManySparesRefusers(j: Job, due: seq<Attendee>, env: Env, x: Uuid)
    requires CrashFree(env) && Monotone(env) && env.at(WalkMany(j, due, env).0.clock) < j.plan.dateEnd
    requires forall a :: a in due && a.id == x ==> Refusing(env, j.plan.channel, a)
    requires x in j.receipts
    ensures WalkMany(j, due, env).0.receipts.Keys == j.receipts.Keys
    ensures WalkMany(j, due, env).0.receipts[x] == j.receipts[x]
    decreases |due|
  {
    WalkManyEffect(j, due, env);
    if due != [] {
      hide WalkOne, CrashFree, Refusing;
      WalkOneEffect(j, due[0], env);
      assert due[0] in due && forall a :: a in due[1..] ==> a in due;
      assert env.at(j.clock) <= env.at(WalkMany(j, due, env).0.clock);
      if due[0].id == x { RefusingIsUntouched(j, due[0], env); }
      WalkManySparesRefusers(WalkOne(j, due[0], env).0, due[1..], env, x);
    }
  }

  // ── fetches ──

  lemma {:induction false} InsertKeepsDistinct(receipts: map<Uuid, Receipt>, a: Attendee, s: seq<Attendee>)
    requires a.id in receipts && forall b :: b in s ==> b.id in receipts
    requires DistinctIds(s) && a.id !in AttendeeIds(s)
    ensures DistinctIds(InsertDue(receipts, a, s))
  {
    if s != [] && !WalksBefore(receipts, a, s[0]) {
      hide WalksBefore;
      assert s == [s[0]] + s[1..];
      InsertKeepsDistinct(receipts, a, s[1..]);
      var r := InsertDue(receipts, a, s[1..]);
      forall i | 0 <= i < |r| ensures r[i].id != s[0].id {
        if r[i] != a {
          assert r[i] in s[1..];
        } else {
          assert s[0].id in AttendeeIds(s);
        }
      }
    } else {
      forall i | 0 <= i < |s| ensures s[i].id != a.id {
        assert s[i].id in AttendeeIds(s);
      }
    }
  }

  lemma {:induction false} SortKeepsDistinct(receipts: map<Uuid, Receipt>, s: seq<Attendee>)
    requires (forall b :: b in s ==> b.id in receipts) && DistinctIds(s)
    ensures DistinctIds(SortDue(receipts, s))
  {
    if s != [] {
      assert s == [s[0]] + s[1..];
      SortKeepsDistinct(receipts, s[1..]);
      assert s[0].id !in AttendeeIds(s[1..]);
      InsertKeepsDistinct(receipts, s[0], SortDue(receipts, s[1..]));
    }
  }

  lemma {:induction false} DueRowsDistinct(attendees: seq<Attendee>, receipts: map<Uuid, Receipt>, now: int)
    requires DistinctIds(attendees)
    ensures DistinctIds(DueRows(attendees, receipts, now))
  {
    if attendees != [] {
      hide DueNow;
      var tail := attendees[1..];
      assert attendees == [attendees[0]] + tail;
      DueRowsDistinct(tail, receipts, now);
      DueRowsFacts(tail, receipts, now);
      var d := DueRows(tail, receipts, now);
      forall i | 0 <= i < |d| ensures d[i].id != attendees[0].id {
        assert d[i] in tail;
      }
    }
  }

  lemma IdsOfCons(rows: seq<Attendee>)
    requires rows != []
    ensures AttendeeIds(rows) == {rows[0].id} + AttendeeIds(rows[1..])
    ensures DistinctIds(rows) ==> DistinctIds(rows[1..]) && rows[0].id !in AttendeeIds(rows[1..])
  {
    assert rows == [rows[0]] + rows[1..];
  }

  lemma {:induction false} IdCount(rows: seq<Attendee>)
    ensures |AttendeeIds(rows)| <= |rows|
    ensures DistinctIds(rows) ==> |AttendeeIds(rows)| == |rows|
  {
    if rows != [] {
      hide AttendeeIds, DistinctIds;
      IdCount(rows[1..]);
      IdsOfCons(rows);
      OneMoreId(AttendeeIds(rows[1..]), rows[0].id);
    }
  }

  lemma OneMoreId<T>(s: set<T>, x: T)
    ensures |{x} + s| == |s| + if x in s then 0 else 1
  {
    assert x in s ==> {x} + s == s;
  }

  /** A fetch returns due rows without repeats: all of them, or `limit` of them. */
  lemma FetchFacts(j: Job, now: int, limit: nat)
    requires DistinctIds(j.attendees)
    ensures var due := DueReceipts(j, now, limit);
            && DistinctIds(due)
            && (forall a :: a in due ==> a in j.attendees && DueNow(j.receipts, a, now))
            && AttendeeIds(due) <= DueIds(j, now)
            && |due| == (if |DueIds(j, now)| <= limit then |DueIds(j, now)| else limit)
            && (|due| < limit ==> forall a :: a in j.attendees && DueNow(j.receipts, a, now) ==> a in due)
  {
    DueRowsFacts(j.attendees, j.receipts, now);
    DueRowsDistinct(j.attendees, j.receipts, now);
    var rows := DueRows(j.attendees, j.receipts, now);
    assert forall b :: b in rows ==> b.id in j.receipts;
    hide DueNow;
    SortKeepsDistinct(j.receipts, rows);
    IdCount(rows);
  }

  // ── the measure ──

  /** Outside `stuck` nobody refuses; or the window is shut, and then nobody at all can. */
  ghost predicate Serves(j: Job, env: Env, stuck: set<Uuid>) {
    OthersWilling(j, env, stuck) || (stuck == {} && Shut(env, j.plan.dateEnd, j.clock))
  }

  /** A full batch cannot be all refusers when fewer than `batch` of the due ones refuse, so
      the round settles somebody. */
  lemma RoundSettlesSomebody(j: Job, batch: nat, env: Env, stuck: set<Uuid>)
    requires batch > 0 && DistinctIds(j.attendees)
    requires Serves(j, env, stuck)
    requires |stuck * DueIds(j, env.at(j.clock))| < batch
    ensures var (j', e) := Round(j, batch, env);
            && SameRow(j, j') && OnlySettles(j, j') && j'.clock > j.clock
            && (CrashFree(env) ==> e != Aborted)
            && Unsent(j') <= Unsent(j)
            && (e == More ==> |Unsent(j')| < |Unsent(j)|)
            && (e != Aborted ==>
                forall a :: a in j.attendees && a in DueReceipts(j, env.at(j.clock), batch) && a.id !in stuck ==>
                  Settled(j'.receipts, a.id))
  {
    var now := env.at(j.clock);
    var due := DueReceipts(j, now, batch);
    var ticked := DbTick(j, env);
    FetchFacts(j, now, batch);
    hide DueReceipts, Willing, DueIds;
    WalkManyEffect(ticked, due, env);
    var (j', e) := Round(j, batch, env);
    assert Shut(env, j.plan.dateEnd, j.clock) ==> Shut(env, j.plan.dateEnd, ticked.clock);
    hide Shut;
    if e != Aborted {
      forall a | a in due && a.id !in stuck ensures Settled(j'.receipts, a.id) {
        WalkManySettles(ticked, due, env, a);
      }
    }
    hide WalkMany, CrashFree;
    if e == More {
      IdCount(due);
      SubsetSize(AttendeeIds(due) * stuck, stuck * DueIds(j, now));
      SomebodyOutside(AttendeeIds(due), stuck);
      var x :| x in AttendeeIds(due) && x !in stuck;
      var a :| a in due && a.id == x;
      assert x in Unsent(j) && x !in Unsent(j');
      ProperSubsetSize(Unsent(j'), Unsent(j));
    }
  }

  // ── termination ──

  lemma DueShrinks(j: Job, j': Job, now: int, now': int)
    requires SameRow(j, j') && OnlySettles(j, j') && now' <= now
    ensures DueIds(j', now') <= DueIds(j, now)
  {
    DueRowsFacts(j.attendees, j.receipts, now);
    DueRowsFacts(j'.attendees, j'.receipts, now');
    forall x | x in DueIds(j', now') ensures x in DueIds(j, now) {
      var a :| a in DueRows(j'.attendees, j'.receipts, now') && a.id == x;
      assert DueNow(j.receipts, a, now);
    }
  }

  lemma DueIsUnsent(j: Job, now: int)
    ensures DueIds(j, now) <= Unsent(j)
  {
    DueRowsFacts(j.attendees, j.receipts, now);
  }

  /** Fewer than `batch` of the unsent receipts may refuse. */
  ghost predicate FewRefuse(j: Job, batch: nat, env: Env, stuck: set<Uuid>) {
    OthersWilling(j, env, stuck) && |stuck * Unsent(j)| < batch
  }

  /** Few refuse, or the window shuts at operation `shut` at the latest. */
  ghost predicate MustEnd(j: Job, batch: nat, env: Env, stuck: set<Uuid>, shut: nat) {
    FewRefuse(j, batch, env, stuck) || Shut(env, j.plan.dateEnd, shut)
  }

  /** Rounds that settle somebody, and operations until the window shuts. */
  ghost function TripsLeft(j: Job, shut: nat): nat {
    |Unsent(j)| + if shut > j.clock then shut - j.clock else 0
  }

  /** Every round that goes on uses up the measure. */
  lemma RoundMeasure(j: Job, batch: nat, env: Env, stuck: set<Uuid>, shut: nat)
    requires batch > 0 && DistinctIds(j.attendees) && MustEnd(j, batch, env, stuck, shut)
    ensures var (j', e) := Round(j, batch, env);
            && j'.attendees == j.attendees && MustEnd(j', batch, env, stuck, shut)
            && (e == More ==> TripsLeft(j', shut) < TripsLeft(j, shut))
  {
    hide Round, DistinctIds, Unsent, OnlySettles, DueIds, Shut, OthersWilling;
    RoundKeepsKeys(j, batch, env);
    var j' := Round(j, batch, env).0;
    UnsentShrinks(j, j');
    if FewRefuse(j, batch, env, stuck) {
      DueIsUnsent(j, env.at(j.clock));
      SubsetSize(stuck * DueIds(j, env.at(j.clock)), stuck * Unsent(j));
      RoundSettlesSomebody(j, batch, env, stuck);
      StillWilling(j, j', env, stuck);
      SubsetSize(stuck * Unsent(j'), stuck * Unsent(j));
    } else if shut <= j.clock {
      StillShut(j, env, shut);
      assert {} * DueIds(j, env.at(j.clock)) == {};
      RoundSettlesSomebody(j, batch, env, {});
    } else {
      SubsetSize(Unsent(j'), Unsent(j));
    }
  }

  lemma StillShut(j: Job, env: Env, shut: nat)
    requires Shut(env, j.plan.dateEnd, shut) && shut <= j.clock
    ensures Shut(env, j.plan.dateEnd, j.clock)
  {
  }

  lemma UnsentShrinks(j: Job, j': Job)
    requires OnlySettles(j, j')
    ensures Unsent(j') <= Unsent(j)
  {
  }

  /**
   THE WALK ENDS when fewer than `batch` receipts can keep refusing, or once the window is
   shut whoever refuses; however the clock moves and whatever the database does meanwhile.
   Without faults it ends by itself.
   */
  lemma {:induction false} WalkEnds(j: Job, n: nat, batch: nat, env: Env, stuck: set<Uuid>, shut: nat)
    requires batch > 0 && DistinctIds(j.attendees) && MustEnd(j, batch, env, stuck, shut)
    requires n > TripsLeft(j, shut)
    ensures var (j', e) := Rounds(j, n, batch, env);
            && e != More && (CrashFree(env) ==> e == Exited)
            && SameRow(j, j') && OnlySettles(j, j')
    decreases n
  {
    hide Round, CrashFree, MustEnd, DistinctIds, TripsLeft;
    RoundMeasure(j, batch, env, stuck, shut);
    RoundNeverAborts(j, batch, env);
    RoundsKeepKeys(j, n, batch, env);
    var (j1, e) := Round(j, batch, env);
    if e == More { WalkEnds(j1, n - 1, batch, env, stuck, shut); }
  }

  lemma RoundNeverAborts(j: Job, batch: nat, env: Env)
    ensures CrashFree(env) ==> Round(j, batch, env).1 != Aborted
  {
    hide DueReceipts, WalkMany;
    WalkManyEffect(DbTick(j, env), DueReceipts(j, env.at(j.clock), batch), env);
  }

  lemma StillWilling(j: Job, j': Job, env: Env, stuck: set<Uuid>)
    requires SameRow(j, j') && OthersWilling(j, env, stuck)
    ensures OthersWilling(j', env, stuck)
  {
    hide Willing;
  }

  /** ANY CLOCK THAT REACHES THE EVENT'S END ends the walk, all receipts refusing or not. */
  lemma WindowEndsIt(j: Job, batch: nat, env: Env, t: nat)
    requires batch > 0 && DistinctIds(j.attendees) && CrashFree(env)
    requires Monotone(env) && j.plan.dateEnd <= env.at(t)
    ensures exists n :: Rounds(j, n, batch, env).1 == Exited
  {
    hide Rounds, CrashFree, DistinctIds;
    WalkEnds(j, TripsLeft(j, t) + 1, batch, env, {}, t);
  }

  // ── nobody starves ──

  /** Left unsent when the loop ended, though due at its last fetch: refusers only. */
  ghost predicate OnlyStuckLeft(j: Job, from: nat, j': Job, env: Env, stuck: set<Uuid>) {
    exists t: nat :: from <= t < j'.clock && StuckLeftAt(j', env.at(t), stuck)
  }

  ghost predicate StuckLeftAt(j: Job, now: int, stuck: set<Uuid>) {
    forall a :: a in j.attendees && DueNow(j.receipts, a, now) ==> a.id in stuck
  }

  /** Whoever was due at the last fetch of a loop that exited, and is willing, has been queued
      or dropped; however many refused. */
  lemma {:induction false} NobodyStarves(j: Job, n: nat, batch: nat, env: Env, stuck: set<Uuid>)
    requires batch > 0 && DistinctIds(j.attendees) && OthersWilling(j, env, stuck)
    requires Rounds(j, n, batch, env).1 == Exited
    ensures OnlyStuckLeft(j, j.clock, Rounds(j, n, batch, env).0, env, stuck)
    decreases n
  {
    hide Round, OthersWilling, StuckLeftAt, DistinctIds;
    RoundKeepsKeys(j, batch, env);
    var (j1, e) := Round(j, batch, env);
    if e == More {
      StillWilling(j, j1, env, stuck);
      NobodyStarves(j1, n - 1, batch, env, stuck);
    } else {
      LastFetchLeavesStuck(j, batch, env, stuck);
    }
  }

  lemma LastFetchLeavesStuck(j: Job, batch: nat, env: Env, stuck: set<Uuid>)
    requires batch > 0 && DistinctIds(j.attendees) && OthersWilling(j, env, stuck)
    requires Round(j, batch, env).1 == Exited
    ensures OnlyStuckLeft(j, j.clock, Round(j, batch, env).0, env, stuck)
  {
    var now := env.at(j.clock);
    var due := DueReceipts(j, now, batch);
    var ticked := DbTick(j, env);
    FetchFacts(j, now, batch);
    hide DueReceipts, Willing;
    WalkManyEffect(ticked, due, env);
    var j' := Round(j, batch, env).0;
    forall a | a in due && a.id !in stuck ensures Settled(j'.receipts, a.id) { WalkManySettles(ticked, due, env, a); }
    hide WalkMany;
    forall a | a in j'.attendees && DueNow(j'.receipts, a, now) ensures a.id in stuck {
      assert DueNow(j.receipts, a, now);
      assert a in due;
    }
    assert j.clock <= j.clock < j'.clock && StuckLeftAt(j', env.at(j.clock), stuck);
  }

  // ── when it does not end ──

  ghost predicate StuckRefuse(j: Job, env: Env, stuck: set<Uuid>) {
    forall a :: a in j.attendees && a.id in stuck ==> Refusing(env, j.plan.channel, a)
  }

  ghost predicate StuckUntouched(j: Job, j': Job, stuck: set<Uuid>) {
    forall x :: x in stuck && x in j.receipts ==> x in j'.receipts && j'.receipts[x] == j.receipts[x]
  }

  /** At least `batch` receipts due that refuse as long as the window is open. */
  ghost predicate Jammed(j: Job, batch: nat, env: Env, stuck: set<Uuid>) {
    && batch > 0 && CrashFree(env) && DistinctIds(j.attendees) && Monotone(env)
    && StuckRefuse(j, env, stuck)
    && |stuck * DueIds(j, env.at(j.clock))| >= batch
  }

  lemma RoundGoesOn(j: Job, batch: nat, env: Env, stuck: set<Uuid>)
    requires Jammed(j, batch, env, stuck) && env.at(Round(j, batch, env).0.clock) < j.plan.dateEnd
    ensures var (j', e) := Round(j, batch, env);
            && e == More
            && SameRow(j, j') && j'.clock >= j.clock
            && StuckUntouched(j, j', stuck)
  {
    assert env.db(j.clock) == Fine;
    hide DueReceipts, DueIds, Refusing, CrashFree, Monotone;
    var now := env.at(j.clock);
    var due := DueReceipts(j, now, batch);
    var ticked := DbTick(j, env);
    FetchFacts(j, now, batch);
    SubsetSize(stuck * DueIds(j, now), DueIds(j, now));
    assert |due| == batch;
    WalkManyEffect(ticked, due, env);
    var j1 := WalkMany(ticked, due, env).0;
    forall x | x in stuck && x in j.receipts ensures x in j1.receipts && j1.receipts[x] == j.receipts[x] {
      WalkManySparesRefusers(ticked, due, env, x);
    }
  }

  lemma RoundStaysJammed(j: Job, batch: nat, env: Env, stuck: set<Uuid>)
    requires Jammed(j, batch, env, stuck) && env.at(Round(j, batch, env).0.clock) < j.plan.dateEnd
    ensures Jammed(Round(j, batch, env).0, batch, env, stuck)
  {
    hide Round, CrashFree, DistinctIds, DueIds, StuckRefuse, StuckUntouched;
    RoundGoesOn(j, batch, env, stuck);
    var j1 := Round(j, batch, env).0;
    assert env.at(j.clock) <= env.at(j1.clock);
    StuckStayDue(j, j1, stuck, env.at(j.clock), env.at(j1.clock));
    StillRefusing(j, j1, env, stuck);
  }

  /** Jammed, the loop goes on for as long as the window is open: after any number of rounds
      that end before the event does, it wants another, refusers untouched. */
  lemma {:induction false} WalkGoesOn(j: Job, n: nat, batch: nat, env: Env, stuck: set<Uuid>)
    requires Jammed(j, batch, env, stuck) && env.at(Rounds(j, n, batch, env).0.clock) < j.plan.dateEnd
    ensures var (j', e) := Rounds(j, n, batch, env);
            e == More && StuckUntouched(j, j', stuck)
    decreases n
  {
    hide Round, StuckUntouched;
    if n > 0 {
      var (j1, e) := Round(j, batch, env);
      RoundKeepsKeys(j, batch, env);
      if e == More { RoundsKeepKeys(j1, n - 1, batch, env); }
      assert env.at(j1.clock) <= env.at(Rounds(j, n, batch, env).0.clock);
      hide Jammed, Monotone;
      RoundGoesOn(j, batch, env, stuck);
      RoundStaysJammed(j, batch, env, stuck);
      WalkGoesOn(j1, n - 1, batch, env, stuck);
      UntouchedTransitive(j, j1, Rounds(j1, n - 1, batch, env).0, stuck);
    } else {
      UntouchedTransitive(j, j, j, stuck);
    }
  }

  /** One open registration, its receipt due, without an e-mail address. */
  function Unreachable(id: Uuid, dateEnd: int): (j: Job) {
    Job([Attendee(id, Open, true, "", None, None)], map[id := Receipt(None, false, None)],
        Settings(Some(id), "email", 0, true, dateEnd, false), false, 0, None, [], 0, 0, Tally(0, 0, 0, 0, 0, 0, 0))
  }

  /** ONE BAD ADDRESS JAMS A BATCH OF ONE: with every port answering and the clock at `now`, the loop never ends. */
  lemma OneBadAddressJams(id: Uuid, now: int, dateEnd: int, n: nat)
    requires now < dateEnd
    ensures var env := Env(_ => Fine, (_, _) => Yes, (_, _) => Yes, _ => now);
            Jammed(Unreachable(id, dateEnd), 1, env, {id}) && Rounds(Unreachable(id, dateEnd), n, 1, env).1 == More
  {
    var env := Env(_ => Fine, (_, _) => Yes, (_, _) => Yes, _ => now);
    var j := Unreachable(id, dateEnd);
    var a := j.attendees[0];
    assert DueNow(j.receipts, a, now) && a in j.attendees;
    assert id in DueIds(j, now);
    assert {id} * DueIds(j, now) == {id};
    assert Jammed(j, 1, env, {id});
    hide Jammed, Unreachable, Rounds;
    WalkGoesOn(j, n, 1, env, {id});
  }

  lemma StillRefusing(j: Job, j': Job, env: Env, stuck: set<Uuid>)
    requires SameRow(j, j') && StuckRefuse(j, env, stuck)
    ensures StuckRefuse(j', env, stuck)
  {
    hide Refusing;
  }

  lemma UntouchedTransitive(j: Job, j1: Job, j2: Job, stuck: set<Uuid>)
    ensures StuckUntouched(j, j, stuck)
    ensures StuckUntouched(j, j1, stuck) && StuckUntouched(j1, j2, stuck) ==> StuckUntouched(j, j2, stuck)
  {
  }

  lemma StuckStayDue(j: Job, j': Job, stuck: set<Uuid>, now: int, later: int)
    requires j'.attendees == j.attendees && StuckUntouched(j, j', stuck) && now <= later
    ensures |stuck * DueIds(j', later)| >= |stuck * DueIds(j, now)|
  {
    DueRowsFacts(j.attendees, j.receipts, now);
    DueRowsFacts(j.attendees, j'.receipts, later);
    forall x | x in stuck * DueIds(j, now) ensures x in stuck * DueIds(j', later) {
      var a :| a in DueRows(j.attendees, j.receipts, now) && a.id == x;
      assert DueNow(j'.receipts, a, later);
    }
    SubsetSize(stuck * DueIds(j, now), stuck * DueIds(j', later));
  }

  /** With fewer than `batch` refusers due by the end of the rounds, the walk is over. */
  lemma {:induction false} FewDueEnds(j: Job, n: nat, batch: nat, env: Env, stuck: set<Uuid>, horizon: int)
    requires batch > 0 && CrashFree(env) && DistinctIds(j.attendees) && Monotone(env)
    requires OthersWilling(j, env, stuck)
    requires env.at(Rounds(j, n, batch, env).0.clock) <= horizon && |stuck * DueIds(j, horizon)| < batch
    requires n > |Unsent(j)|
    ensures Rounds(j, n, batch, env).1 == Exited
    decreases n
  {
    hide Round, CrashFree, OthersWilling, DueIds, DistinctIds, Unsent;
    var (j1, e) := Round(j, batch, env);
    RoundKeepsKeys(j, batch, env);
    RoundsKeepKeys(j, n, batch, env);
    var now := env.at(j.clock);
    assert now <= horizon;
    DueShrinks(j, j, horizon, now) by { SettlesTransitive(j, j, j); }
    SubsetSize(stuck * DueIds(j, now), stuck * DueIds(j, horizon));
    RoundSettlesSomebody(j, batch, env, stuck);
    if e == More {
      DueShrinks(j, j1, horizon, horizon);
      SubsetSize(stuck * DueIds(j1, horizon), stuck * DueIds(j, horizon));
      StillWilling(j, j1, env, stuck);
      FewDueEnds(j1, n - 1, batch, env, stuck, horizon);
    }
  }

  /**
   EXACTLY WHEN IT ENDS BEFORE THE EVENT DOES. Every receipt willing or refusing, a clock that
   never runs back, and more rounds than unsent receipts, the last of them over while the window
   is still open: the loop goes on if `batch` refusers were due when it began, and has ended if
   fewer are due even at that last moment. When no refuser falls due in between, that is an
   equivalence.
   */
  lemma WalkEndsIffFewRefuse(j: Job, n: nat, batch: nat, env: Env, stuck: set<Uuid>)
    requires batch > 0 && CrashFree(env) && DistinctIds(j.attendees) && Monotone(env)
    requires OthersWilling(j, env, stuck) && StuckRefuse(j, env, stuck)
    requires n > |Unsent(j)|
    requires env.at(Rounds(j, n, batch, env).0.clock) < j.plan.dateEnd
    ensures var (j', e) := Rounds(j, n, batch, env);
            var began, ended := DueIds(j, env.at(j.clock)), DueIds(j, env.at(j'.clock));
            && (|stuck * began| >= batch ==> e == More && StuckUntouched(j, j', stuck))
            && (|stuck * ended| < batch ==> e == Exited)
            && (stuck * began == stuck * ended ==> (e != More <==> |stuck * began| < batch))
  {
    hide CrashFree, Rounds, DueIds, OthersWilling, StuckRefuse, Monotone, Unsent, StuckUntouched;
    if |stuck * DueIds(j, env.at(j.clock))| >= batch { WalkGoesOn(j, n, batch, env, stuck); }
    var end := env.at(Rounds(j, n, batch, env).0.clock);
    if |stuck * DueIds(j, end)| < batch { FewDueEnds(j, n, batch, env, stuck, end); }
  }

  /**
   EXACTLY WHEN IT ENDS AT ALL. If no refuser falls due after the walk began, the loop ends if and
   only if fewer than `batch` of the due receipts refuse or the clock reaches the event's end.
   */
  lemma WalkEndsIffFewRefuseOrWindowShuts(j: Job, batch: nat, env: Env, stuck: set<Uuid>)
    requires batch > 0 && CrashFree(env) && DistinctIds(j.attendees) && Monotone(env)
    requires OthersWilling(j, env, stuck) && StuckRefuse(j, env, stuck)
    requires forall t: nat :: t >= j.clock ==> stuck * DueIds(j, env.at(t)) == stuck * DueIds(j, env.at(j.clock))
    ensures (exists n :: Rounds(j, n, batch, env).1 != More)
       <==> |stuck * DueIds(j, env.at(j.clock))| < batch || exists t: nat :: j.plan.dateEnd <= env.at(t)
  {
    hide CrashFree, Rounds, DueIds, OthersWilling, StuckRefuse, Monotone, Unsent;
    if t: nat :| j.plan.dateEnd <= env.at(t) {
      WindowEndsIt(j, batch, env, t);
    } else if |stuck * DueIds(j, env.at(j.clock))| < batch {
      var n := |Unsent(j)| + 1;
      RoundsKeepKeys(j, n, batch, env);
      FewDueEnds(j, n, batch, env, stuck, env.at(Rounds(j, n, batch, env).0.clock));
    } else {
      forall n: nat ensures Rounds(j, n, batch, env).1 == More { WalkGoesOn(j, n, batch, env, stuck); }
    }
  }

  /** If everybody due refuses and they fill a batch, no receipt at all changes while the window
      is open. */
  lemma AllRefuseNothingMoves(j: Job, n: nat, batch: nat, env: Env)
    requires batch > 0 && CrashFree(env) && DistinctIds(j.attendees) && Monotone(env)
    requires forall a :: a in j.attendees ==> Refusing(env, j.plan.channel, a)
    requires |DueIds(j, env.at(j.clock))| >= batch
    requires env.at(Rounds(j, n, batch, env).0.clock) < j.plan.dateEnd
    ensures Rounds(j, n, batch, env).1 == More && Rounds(j, n, batch, env).0.receipts == j.receipts
  {
    var stuck := j.receipts.Keys;
    DueIsUnsent(j, env.at(j.clock));
    assert stuck * DueIds(j, env.at(j.clock)) == DueIds(j, env.at(j.clock));
    assert Jammed(j, batch, env, stuck);
    WalkGoesOn(j, n, batch, env, stuck);
    RoundsKeepKeys(j, n, batch, env);
    hide Rounds, Refusing, CrashFree, DueIds;
    assert Rounds(j, n, batch, env).0.receipts == j.receipts;
  }

  lemma RoundKeepsKeys(j: Job, batch: nat, env: Env)
    ensures var j' := Round(j, batch, env).0;
            SameRow(j, j') && OnlySettles(j, j') && j'.clock > j.clock
  {
    hide DueReceipts, WalkMany;
    WalkManyEffect(DbTick(j, env), DueReceipts(j, env.at(j.clock), batch), env);
  }

  lemma SettlesTransitive(j: Job, j1: Job, j2: Job)
    requires OnlySettles(j, j1) && OnlySettles(j1, j2)
    ensures OnlySettles(j, j2)
  {
  }

  lemma {:induction false} RoundsKeepKeys(j: Job, n: nat, batch: nat, env: Env)
    ensures var j' := Rounds(j, n, batch, env).0;
            SameRow(j, j') && OnlySettles(j, j') && j'.clock >= j.clock
    decreases n
  {
    hide Round;
    if n > 0 {
      hide OnlySettles;
      RoundKeepsKeys(j, batch, env);
      var (j1, e) := Round(j, batch, env);
      if e == More {
        RoundsKeepKeys(j1, n - 1, batch, env);
        SettlesTransitive(j, j1, Rounds(j1, n - 1, batch, env).0);
      }
    }
  }

  /** Rounds beyond the last change nothing. */
  lemma {:induction false} RoundsStable(j: Job, n: nat, m: nat, batch: nat, env: Env)
    requires Rounds(j, n, batch, env).1 != More && n <= m
    ensures Rounds(j, m, batch, env) == Rounds(j, n, batch, env)
    decreases n
  {
    hide Round;
    var (j1, e) := Round(j, batch, env);
    if e == More { RoundsStable(j1, n - 1, m - 1, batch, env); }
  }
}
