/** The lease: walkers of the queue on any number of hosts, and the clock they share. */
module LeadLease {
  import opened Wrappers
  import opened Text
  import opened LeadWalk

  datatype Row = Row(done: bool, claimedAt: Option<int>)

  /** A walk in progress: its event and when it took the lease. */
  datatype Walker = Walker(eventId: Uuid, since: int)

  datatype Queue = Queue(rows: map<Uuid, Row>, walkers: map<nat, Walker>, now: int)

  datatype Move =
    | Wait(seconds: nat)
    | Arm(eventId: Uuid)
    | CronClaim(id: nat, eventId: Uuid)
    | OfficerClaim(id: nat, eventId: Uuid)
    | Finish(id: nat, completed: bool)
    | Die(id: nat)

  predicate Enabled(q: Queue, m: Move) {
    match m
    case Wait(_) => true
    case Arm(_) => true
    case CronClaim(id, e) => id !in q.walkers && e in q.rows && !q.rows[e].done && !Leased(q.rows[e].claimedAt, q.now)
    case OfficerClaim(id, e) => id !in q.walkers && e in q.rows && !Leased(q.rows[e].claimedAt, q.now)
    case Finish(id, _) => id in q.walkers
    case Die(id) => id in q.walkers
  }

  /** An arm never touches the lease; a finish releases it whoever holds it. */
  function Next(q: Queue, m: Move): (r: Queue)
    requires Enabled(q, m)
  {
    match m
    case Wait(seconds) => q.(now := q.now + seconds)
    case Arm(e) =>
      q.(rows := q.rows[e := if e in q.rows then q.rows[e].(done := false) else Row(false, None)])
    case CronClaim(id, e) => Claimed(q, id, e)
    case OfficerClaim(id, e) => Claimed(q, id, e)
    case Finish(id, completed) =>
      var e := q.walkers[id].eventId;
      q.(rows := if e in q.rows then q.rows[e := Row(completed, None)] else q.rows, walkers := q.walkers - {id})
    case Die(id) => q.(walkers := q.walkers - {id})
  }

  function Claimed(q: Queue, id: nat, e: Uuid): (r: Queue)
    requires e in q.rows
  {
    q.(rows := q.rows[e := q.rows[e].(claimedAt := Some(q.now))], walkers := q.walkers[id := Walker(e, q.now)])
  }

  ghost predicate IsRun(states: seq<Queue>, moves: seq<Move>) {
    && |states| == |moves| + 1
    && states[0].rows == map[] && states[0].walkers == map[]
    && forall i :: 0 <= i < |moves| ==> Enabled(states[i], moves[i]) && states[i + 1] == Next(states[i], moves[i])
  }

  /** No walk outlives its lease. */
  ghost predicate Prompt(q: Queue) {
    forall id :: id in q.walkers ==> q.now - q.walkers[id].since <= LEASE_SECONDS
  }

  ghost predicate Exclusive(q: Queue) {
    forall a, b :: a in q.walkers && b in q.walkers && a != b ==> q.walkers[a].eventId != q.walkers[b].eventId
  }

  /** Each walker's row carries the very stamp it took. */
  ghost predicate Stamped(q: Queue) {
    forall id :: id in q.walkers ==>
      q.walkers[id].eventId in q.rows && q.rows[q.walkers[id].eventId].claimedAt == Some(q.walkers[id].since)
  }

  lemma MoveKeepsExclusive(q: Queue, m: Move)
    requires Enabled(q, m) && Prompt(q) && Exclusive(q) && Stamped(q)
    ensures Exclusive(Next(q, m)) && Stamped(Next(q, m))
  {
  }

  /** LEASE SAFETY. While every walk is over within its lease, no two walkers are ever on one event. */
  lemma {:induction false} OneWalkerPerEvent(states: seq<Queue>, moves: seq<Move>, i: nat)
    requires IsRun(states, moves) && i < |states|
    requires forall j :: 0 <= j < i ==> Prompt(states[j])
    ensures Exclusive(states[i]) && Stamped(states[i])
  {
    if i > 0 {
      OneWalkerPerEvent(states, moves, i - 1);
      MoveKeepsExclusive(states[i - 1], moves[i - 1]);
    }
  }

  /** And only then: a claim on an event that is being walked is refused exactly while the
      walk is within its lease. */
  lemma SecondClaimIffOverdue(q: Queue, a: nat, b: nat)
    requires Stamped(q) && a in q.walkers && b !in q.walkers
    ensures var e := q.walkers[a].eventId;
            Enabled(q, OfficerClaim(b, e)) <==> q.now - q.walkers[a].since > LEASE_SECONDS
    ensures var e := q.walkers[a].eventId;
            Enabled(q, CronClaim(b, e)) <==> q.now - q.walkers[a].since > LEASE_SECONDS && !q.rows[e].done
    ensures var e := q.walkers[a].eventId;
            Enabled(q, OfficerClaim(b, e)) ==> !Exclusive(Next(q, OfficerClaim(b, e)))
  {
    var e := q.walkers[a].eventId;
    if Enabled(q, OfficerClaim(b, e)) {
      var q' := Next(q, OfficerClaim(b, e));
      assert a in q'.walkers && b in q'.walkers && q'.walkers[a].eventId == q'.walkers[b].eventId;
    }
  }

  /** Once two walks overlap, the first to finish releases the other's lease as well: a third
      walker may start at once, however fresh the survivor's stamp. */
  lemma FinishReleasesTheOther(q: Queue, a: nat, b: nat, c: nat, completed: bool)
    requires a in q.walkers && b in q.walkers && a != b && c !in q.walkers
    requires q.walkers[a].eventId == q.walkers[b].eventId && q.walkers[a].eventId in q.rows
    ensures var q' := Next(q, Finish(a, completed));
            b in q'.walkers && Enabled(q', OfficerClaim(c, q'.walkers[b].eventId))
  {
  }

  /** AN ARM DURING A WALK IS LOST if the walk completes: the finish leaves the queue as if nobody had armed,
      and no pass claims the event. */
  lemma ArmDuringWalkIsLost(q: Queue, a: nat)
    requires a in q.walkers && q.walkers[a].eventId in q.rows
    ensures var e := q.walkers[a].eventId;
            var armed := Next(q, Arm(e));
            && !armed.rows[e].done
            && Next(armed, Finish(a, true)) == Next(q, Finish(a, true))
            && forall id :: !Enabled(Next(armed, Finish(a, true)), CronClaim(id, e))
  {
    var e := q.walkers[a].eventId;
    assert q.rows[e := q.rows[e].(done := false)][e := Row(true, None)] == q.rows[e := Row(true, None)];
  }
}
