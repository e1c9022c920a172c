/** The pass over the queue: claim by lease, walk, park or complete, up to the cron limit. */
module LeadPass {
  import opened Wrappers
  import opened Text
  import opened LeadModel
  import opened LeadGrouping
  import opened LeadWalk
  import opened LeadInvariant
  import opened LeadRun

  /** Not done, not freshly leased, and not parked earlier by this very pass. */
  predicate Due(q: Request, now: int, exclude: seq<Uuid>) {
    && !q.done
    && !Leased(q.claimedAt, now)
    && q.eventId !in exclude
  }

  /** The first due row in id order. */
  function FirstDue(requests: seq<Request>, now: int, exclude: seq<Uuid>): (i: nat)
    ensures i <= |requests|
    ensures i < |requests| ==> Due(requests[i], now, exclude)
    ensures forall j :: 0 <= j < i ==> !Due(requests[j], now, exclude)
  {
    if requests == [] || Due(requests[0], now, exclude) then 0
    else
      var i := FirstDue(requests[1..], now, exclude);
      assert forall j :: 1 <= j <= i ==> requests[j] == requests[1..][j - 1] || j == i + 1 || j == |requests|;
      i + 1
  }

  function Claim(w: World, exclude: seq<Uuid>, now: int, o: Replies): (r: World) {
    var t := Tick(w, o);
    var i := FirstDue(w.requests, now, exclude);
    if i < |w.requests| && Lands(o, w.clock)
    then t.(requests := w.requests[i := w.requests[i].(claimedAt := Some(now))]) else t
  }

  function CountClaim(w: World): (r: World) {
    w.(summary := w.summary.(requestsClaimed := w.summary.requestsClaimed + 1))
  }

  /** How a pass ended: whether it returned normally, and what it claimed and parked, in order. */
  datatype PassEnd = PassEnd(world: World, ok: bool, claims: seq<Uuid>, parked: seq<Uuid>)

  /** The claim loop; `at` is the database clock at each awaited operation. */
  function PassLoop(w: World, parked: seq<Uuid>, batch: nat, budget: nat, o: Replies, at: nat -> int): (r: PassEnd)
    requires batch > 0
    decreases budget
  {
    if budget == 0 then PassEnd(w, true, [], parked)
    else
      var now := at(w.clock);
      var claimed := Claim(w, parked, now, o);
      var i := FirstDue(w.requests, now, parked);
      if o(w.clock).Fault? then PassEnd(claimed, false, [], parked)
      else if i == |w.requests| then PassEnd(claimed, true, [], parked)
      else
        var eventId := w.requests[i].eventId;
        var (walked, v) := RunOne(CountClaim(claimed), eventId, batch, o);
        if v == Failed then PassEnd(walked, false, [eventId], parked)
        else
          var rest := PassLoop(walked, if v.Parked? then parked + [eventId] else parked, batch, budget - 1, o, at);
          rest.(claims := [eventId] + rest.claims)
  }

  /** One pass, its summary started afresh. */
  function Pass(w: World, batch: nat, cronLimit: nat, o: Replies, at: nat -> int): (r: PassEnd)
    requires batch > 0
  {
    PassLoop(w.(summary := EMPTY_SUMMARY), [], batch, cronLimit, o, at)
  }

  lemma PassLoopUnfolds(w: World, parked: seq<Uuid>, batch: nat, budget: nat, o: Replies, at: nat -> int)
    requires batch > 0 && budget > 0
    ensures var end := PassLoop(w, parked, batch, budget, o, at);
            var i := FirstDue(w.requests, at(w.clock), parked);
            var claimed := Claim(w, parked, at(w.clock), o);
            if o(w.clock).Fault? then end == PassEnd(claimed, false, [], parked)
            else if i == |w.requests| then end == PassEnd(claimed, true, [], parked)
            else
              var eventId := w.requests[i].eventId;
              var (walked, v) := RunOne(CountClaim(claimed), eventId, batch, o);
              if v == Failed then end == PassEnd(walked, false, [eventId], parked)
              else
                var parked' := if v.Parked? then parked + [eventId] else parked;
                var rest := PassLoop(walked, parked', batch, budget - 1, o, at);
                end == rest.(claims := [eventId] + rest.claims)
  {
    hide RunOne, Claim, FirstDue;
  }

  // ── the queue counters move only at claim and finish ──

  ghost predicate SameQueueCounts(w: World, w': World) {
    && w'.clock >= w.clock
    && w'.summary.requestsClaimed == w.summary.requestsClaimed
    && w'.summary.requestsCompleted == w.summary.requestsCompleted
    && w'.summary.requestsParked == w.summary.requestsParked
    && w'.requests == w.requests
  }

  lemma CommitGroupQueue(w: World, ruleId: Uuid, eventId: Uuid, group: Group, o: Replies)
    ensures SameQueueCounts(w, CommitGroup(w, ruleId, eventId, group, o).0)
  {
    hide GroupMembers, Added, Ids, CallFor;
  }

  lemma {:induction false} CommitGroupsQueue(w: World, ruleId: Uuid, eventId: Uuid, groups: seq<Group>, o: Replies)
    ensures SameQueueCounts(w, CommitGroups(w, ruleId, eventId, groups, o).0)
    decreases |groups|
  {
    if groups != [] {
      CommitGroupQueue(w, ruleId, eventId, groups[0], o);
      CommitGroupsQueue(CommitGroup(w, ruleId, eventId, groups[0], o).0, ruleId, eventId, groups[1..], o);
      hide CommitGroup;
    }
  }

  lemma {:induction false} WalkRuleQueue(w: World, rule: Rule, eventId: Uuid, batch: nat, o: Replies)
    requires batch > 0
    ensures SameQueueCounts(w, WalkRule(w, rule, eventId, batch, o).0)
    decreases |Pending(w, rule, eventId)|
  {
    hide CommitGroups, Pending, GroupBy, WellFormed;
    var rows := Take(Pending(w, rule, eventId), batch);
    CommitGroupsQueue(Matched(Fetched(w, o), |rows|), rule.id, eventId, GroupBy(eventId, rows), o);
    BatchStepShrinks(w, rule, eventId, batch, o);
    var (w1, v, more) := BatchStep(w, rule, eventId, batch, o);
    assert SameQueueCounts(w, w1);
    hide BatchStep;
    if more { WalkRuleQueue(w1, rule, eventId, batch, o); }
  }

  lemma {:induction false} WalkRulesQueue(w: World, rules: seq<Rule>, eventId: Uuid, batch: nat, o: Replies)
    requires batch > 0
    ensures SameQueueCounts(w, WalkRules(w, rules, eventId, batch, o).0)
    decreases |rules|
  {
    if rules != [] {
      hide WalkRule;
      WalkRuleQueue(PredicatesRead(w, o), rules[0], eventId, batch, o);
      WalkRulesQueue(WalkRule(PredicatesRead(w, o), rules[0], eventId, batch, o).0, rules[1..], eventId, batch, o);
    }
  }

  /** What a walk does to the queue: its own row finished and released, and one counter moved. */
  lemma RunOneQueue(w: World, eventId: Uuid, batch: nat, o: Replies)
    requires batch > 0
    ensures var (w', v) := RunOne(w, eventId, batch, o);
            var s, s' := w.summary, w'.summary;
            && w'.clock >= w.clock
            && s'.requestsClaimed == s.requestsClaimed
            && s'.requestsCompleted == s.requestsCompleted + (if v == Drained then 1 else 0)
            && s'.requestsParked == s.requestsParked + (if v.Parked? then 1 else 0)
            && |w'.requests| == |w.requests|
            && (forall i :: 0 <= i < |w.requests| ==> w'.requests[i].eventId == w.requests[i].eventId)
            && (forall i :: 0 <= i < |w.requests| && w.requests[i].eventId != eventId ==>
                w'.requests[i] == w.requests[i])
            && (v != Failed ==>
                w'.requests == Finished(w.requests, eventId, if v.Parked? then Some(v.reason) else None))
  {
    hide WalkRules, ActiveRules;
    WalkRulesQueue(Tick(w, o), ActiveRules(w.rules, eventId), eventId, batch, o);
  }

  // ── what a pass keeps ──

  /** Events this pass may not claim again: parked ones, and ones whose row it completed. */
  ghost predicate Spent(w: World, parked: seq<Uuid>, e: Uuid) {
    e in parked || forall i :: 0 <= i < |w.requests| && w.requests[i].eventId == e ==> w.requests[i].done
  }

  lemma TurnKeepsSpent(w: World, parked: seq<Uuid>, batch: nat, o: Replies, at: nat -> int, e: Uuid)
    requires batch > 0 && Spent(w, parked, e) && !o(w.clock).Fault?
    requires FirstDue(w.requests, at(w.clock), parked) < |w.requests|
    ensures var eventId := w.requests[FirstDue(w.requests, at(w.clock), parked)].eventId;
            var (walked, v) := RunOne(CountClaim(Claim(w, parked, at(w.clock), o)), eventId, batch, o);
            eventId != e && Spent(walked, if v.Parked? then parked + [eventId] else parked, e)
  {
    var i := FirstDue(w.requests, at(w.clock), parked);
    var eventId := w.requests[i].eventId;
    assert eventId != e;
    RunOneQueue(CountClaim(Claim(w, parked, at(w.clock), o)), eventId, batch, o);
    hide RunOne, Due, FirstDue;
  }

  lemma {:induction false} PassLoopNeverReclaims(w: World, parked: seq<Uuid>, batch: nat, budget: nat, o: Replies,
                                                 at: nat -> int, e: Uuid)
    requires batch > 0 && Spent(w, parked, e)
    ensures e !in PassLoop(w, parked, batch, budget, o, at).claims
    decreases budget
  {
    hide RunOne, Claim, Spent, PassLoop;
    if budget > 0 {
      PassLoopUnfolds(w, parked, batch, budget, o, at);
      var i := FirstDue(w.requests, at(w.clock), parked);
      if !o(w.clock).Fault? && i < |w.requests| {
        TurnKeepsSpent(w, parked, batch, o, at, e);
        hide FirstDue;
        var eventId := w.requests[i].eventId;
        var (walked, v) := RunOne(CountClaim(Claim(w, parked, at(w.clock), o)), eventId, batch, o);
        if v != Failed {
          PassLoopNeverReclaims(walked, if v.Parked? then parked + [eventId] else parked, batch, budget - 1, o, at, e);
        }
      }
    } else {
      NoBudgetNoClaims(w, parked, batch, o, at);
    }
  }

  lemma NoBudgetNoClaims(w: World, parked: seq<Uuid>, batch: nat, o: Replies, at: nat -> int)
    requires batch > 0
    ensures PassLoop(w, parked, batch, 0, o, at) == PassEnd(w, true, [], parked)
  {
  }

  /** One turn of the claim loop that goes on. */
  ghost predicate Turns(w: World, parked: seq<Uuid>, batch: nat, budget: nat, o: Replies, at: nat -> int)
    requires batch > 0
  {
    && budget > 0 && !o(w.clock).Fault?
    && FirstDue(w.requests, at(w.clock), parked) < |w.requests|
    && Turn(w, parked, batch, o, at).1 != Failed
  }

  function Turn(w: World, parked: seq<Uuid>, batch: nat, o: Replies, at: nat -> int): (r: (World, Verdict))
    requires batch > 0 && FirstDue(w.requests, at(w.clock), parked) < |w.requests|
  {
    RunOne(CountClaim(Claim(w, parked, at(w.clock), o)),
           w.requests[FirstDue(w.requests, at(w.clock), parked)].eventId, batch, o)
  }

  lemma PassLoopTurns(w: World, parked: seq<Uuid>, batch: nat, budget: nat, o: Replies, at: nat -> int)
    requires batch > 0 && Turns(w, parked, batch, budget, o, at)
    ensures var eventId := w.requests[FirstDue(w.requests, at(w.clock), parked)].eventId;
            var (walked, v) := Turn(w, parked, batch, o, at);
            var rest := PassLoop(walked, if v.Parked? then parked + [eventId] else parked, batch, budget - 1, o, at);
            PassLoop(w, parked, batch, budget, o, at) == rest.(claims := [eventId] + rest.claims)
  {
    hide RunOne, Claim, FirstDue;
  }

  lemma PassLoopStops(w: World, parked: seq<Uuid>, batch: nat, budget: nat, o: Replies, at: nat -> int)
    requires batch > 0 && !Turns(w, parked, batch, budget, o, at)
    ensures var end := PassLoop(w, parked, batch, budget, o, at);
            var s, s' := w.summary, end.world.summary;
            && s'.requestsClaimed == s.requestsClaimed + |end.claims|
            && s'.requestsCompleted == s.requestsCompleted && s'.requestsParked == s.requestsParked
            && |end.claims| <= 1 && |end.claims| <= budget && end.parked == parked
            && (end.ok ==> end.claims == [] && end.world.requests == w.requests)
            && (end.ok && budget > 0 ==>
                FirstDue(w.requests, at(w.clock), parked) == |w.requests| && end.world.clock == w.clock + 1)
  {
    hide RunOne, FirstDue, Due;
    var i := FirstDue(w.requests, at(w.clock), parked);
    if i < |w.requests| {
      RunOneQueue(CountClaim(Claim(w, parked, at(w.clock), o)), w.requests[i].eventId, batch, o);
    }
  }

  /** After a turn its event is spent, and the counters moved by one claim and one ending. */
  lemma TurnSpends(w: World, parked: seq<Uuid>, batch: nat, budget: nat, o: Replies, at: nat -> int)
    requires batch > 0 && Turns(w, parked, batch, budget, o, at)
    ensures var eventId := w.requests[FirstDue(w.requests, at(w.clock), parked)].eventId;
            var (walked, v) := Turn(w, parked, batch, o, at);
            var s, s' := w.summary, walked.summary;
            && Spent(walked, if v.Parked? then parked + [eventId] else parked, eventId)
            && s'.requestsClaimed == s.requestsClaimed + 1
            && s'.requestsCompleted == s.requestsCompleted + (if v.Parked? then 0 else 1)
            && s'.requestsParked == s.requestsParked + (if v.Parked? then 1 else 0)
  {
    hide RunOne, FirstDue, Due;
    var i := FirstDue(w.requests, at(w.clock), parked);
    RunOneQueue(CountClaim(Claim(w, parked, at(w.clock), o)), w.requests[i].eventId, batch, o);
  }

  /** A pass that returns has completed or parked everything it claimed, at most `budget` of
      them and no event twice. */
  lemma {:induction false} PassLoopConserves(w: World, parked: seq<Uuid>, batch: nat, budget: nat, o: Replies,
                                             at: nat -> int)
    requires batch > 0
    ensures var end := PassLoop(w, parked, batch, budget, o, at);
            var s, s' := w.summary, end.world.summary;
            && |end.claims| <= budget
            && (forall i, j :: 0 <= i < j < |end.claims| ==> end.claims[i] != end.claims[j])
            && s'.requestsClaimed == s.requestsClaimed + |end.claims|
            && |end.parked| == |parked| + s'.requestsParked - s.requestsParked
            && (end.ok ==>
                |end.claims| == (s'.requestsCompleted - s.requestsCompleted) + (s'.requestsParked - s.requestsParked))
    decreases budget
  {
    hide PassLoop, Turns, Turn, FirstDue, Spent;
    if Turns(w, parked, batch, budget, o, at) {
      assert budget > 0 && FirstDue(w.requests, at(w.clock), parked) < |w.requests| by {
        TurnsMeans(w, parked, batch, budget, o, at);
      }
      var eventId := w.requests[FirstDue(w.requests, at(w.clock), parked)].eventId;
      var (walked, v) := Turn(w, parked, batch, o, at);
      var parked' := if v.Parked? then parked + [eventId] else parked;
      PassLoopTurns(w, parked, batch, budget, o, at);
      TurnSpends(w, parked, batch, budget, o, at);
      PassLoopConserves(walked, parked', batch, budget - 1, o, at);
      PassLoopNeverReclaims(walked, parked', batch, budget - 1, o, at, eventId);
    } else {
      PassLoopStops(w, parked, batch, budget, o, at);
    }
  }

  lemma TurnsMeans(w: World, parked: seq<Uuid>, batch: nat, budget: nat, o: Replies, at: nat -> int)
    requires batch > 0 && Turns(w, parked, batch, budget, o, at)
    ensures budget > 0 && FirstDue(w.requests, at(w.clock), parked) < |w.requests|
  {
  }

  lemma TurnTakesTime(w: World, parked: seq<Uuid>, batch: nat, o: Replies, at: nat -> int)
    requires batch > 0 && FirstDue(w.requests, at(w.clock), parked) < |w.requests|
    ensures Turn(w, parked, batch, o, at).0.clock > w.clock
  {
    hide RunOne, FirstDue, Due;
    RunOneQueue(CountClaim(Claim(w, parked, at(w.clock), o)),
        w.requests[FirstDue(w.requests, at(w.clock), parked)].eventId, batch, o);
  }

  ghost predicate NoneDue(requests: seq<Request>, now: int, exclude: seq<Uuid>) {
    forall i :: 0 <= i < |requests| ==> !Due(requests[i], now, exclude)
  }

  /** A pass that returns under its cap has looked last, at its own last operation, at a queue with no
      row due, bar the events it parked itself; and it leaves that queue. */
  lemma {:induction false} PassLoopExhausts(w: World, parked: seq<Uuid>, batch: nat, budget: nat, o: Replies,
                                            at: nat -> int)
    requires batch > 0
    ensures var end := PassLoop(w, parked, batch, budget, o, at);
            end.ok && |end.claims| < budget ==>
              w.clock < end.world.clock && NoneDue(end.world.requests, at(end.world.clock - 1), end.parked)
    decreases budget
  {
    hide PassLoop, Turns, Turn, Due;
    if Turns(w, parked, batch, budget, o, at) {
      assert budget > 0 && FirstDue(w.requests, at(w.clock), parked) < |w.requests| by {
        TurnsMeans(w, parked, batch, budget, o, at);
      }
      var eventId := w.requests[FirstDue(w.requests, at(w.clock), parked)].eventId;
      var (walked, v) := Turn(w, parked, batch, o, at);
      PassLoopTurns(w, parked, batch, budget, o, at);
      TurnTakesTime(w, parked, batch, o, at);
      PassLoopExhausts(walked, if v.Parked? then parked + [eventId] else parked, batch, budget - 1, o, at);
    } else {
      PassLoopStops(w, parked, batch, budget, o, at);
      if FirstDue(w.requests, at(w.clock), parked) == |w.requests| {
        assert NoneDue(w.requests, at(w.clock), parked);
      }
    }
  }

  /** PASS CONSERVATION, for the pass as a whole. */
  lemma PassConserves(w: World, batch: nat, cronLimit: nat, o: Replies, at: nat -> int)
    requires batch > 0
    ensures var end := Pass(w, batch, cronLimit, o, at);
            var s := end.world.summary;
            && s.requestsClaimed == |end.claims| <= cronLimit
            && s.requestsParked == |end.parked|
            && (end.ok ==> s.requestsClaimed == s.requestsCompleted + s.requestsParked)
            && (forall i, j :: 0 <= i < j < |end.claims| ==> end.claims[i] != end.claims[j])
  {
    hide PassLoop;
    PassLoopConserves(w.(summary := EMPTY_SUMMARY), [], batch, cronLimit, o, at);
  }

  lemma {:induction false} PassLoopKeepsInv(w: World, parked: seq<Uuid>, batch: nat, budget: nat, o: Replies,
                                            at: nat -> int)
    requires batch > 0 && Inv(w)
    ensures Inv(PassLoop(w, parked, batch, budget, o, at).world)
    decreases budget
  {
    hide RunOne, Due, Inv;
    var claimed := Claim(w, parked, at(w.clock), o);
    InvIgnoresCounters(w, claimed);
    InvIgnoresCounters(w, CountClaim(claimed));
    var i := FirstDue(w.requests, at(w.clock), parked);
    if budget > 0 && !o(w.clock).Fault? && i < |w.requests| {
      var eventId := w.requests[i].eventId;
      RunOneKeepsInv(CountClaim(claimed), eventId, batch, o);
      var (walked, v) := RunOne(CountClaim(claimed), eventId, batch, o);
      PassLoopKeepsInv(walked, if v.Parked? then parked + [eventId] else parked, batch, budget - 1, o, at);
    }
  }

  // ── the officer verb ──

  datatype OfficerAnswer = Ran(verdict: Verdict) | Busy | NotFound | Unavailable

  /** The event's queue row, by its unique event id. */
  function RowOf(requests: seq<Request>, eventId: Uuid): (i: nat)
    ensures i <= |requests|
    ensures i < |requests| ==> requests[i].eventId == eventId
    ensures i == |requests| <==> forall q :: q in requests ==> q.eventId != eventId
  {
    if requests == [] then 0
    else
      assert requests == [requests[0]] + requests[1..];
      if requests[0].eventId == eventId then 0 else RowOf(requests[1..], eventId) + 1
  }

  /** The event's row leased, whether done or not; None when it is absent or freshly held. */
  function TryLease(w: World, eventId: Uuid, now: int, o: Replies): (r: World) {
    var t := Tick(w, o);
    var i := RowOf(w.requests, eventId);
    if i < |w.requests| && !Leased(w.requests[i].claimedAt, now) && Lands(o, w.clock)
    then t.(requests := w.requests[i := w.requests[i].(claimedAt := Some(now))]) else t
  }

  /** One event walked at an officer's hand, through the same lease. */
  function RunOfEvent(w: World, eventId: Uuid, batch: nat, o: Replies, now: int): (r: (World, OfficerAnswer))
    requires batch > 0
  {
    var restarted := w.(summary := EMPTY_SUMMARY);
    var leased := TryLease(restarted, eventId, now, o);
    var i := RowOf(w.requests, eventId);
    if o(w.clock).Fault? then (leased, Unavailable)
    else if i < |w.requests| && !Leased(w.requests[i].claimedAt, now) then
      var (walked, v) := RunOne(CountClaim(leased), eventId, batch, o);
      (walked, Ran(v))
    else
      var counted := Tick(leased, o);
      (counted, if o(leased.clock).Fault? then Unavailable else if i < |w.requests| then Busy else NotFound)
  }

  ghost predicate TablesUntouched(w: World, w': World) {
    && w'.registrations == w.registrations && w'.rules == w.rules && w'.requests == w.requests
    && w'.groups == w.groups && w'.junction == w.junction && w'.log == w.log
  }

  /**
   THE OFFICER NEVER RUNS UNSERIALISED. With the database answering, the verb walks the event
   exactly when it has a row nobody holds a fresh lease on; it is busy exactly when somebody
   does and not found exactly when there is no row, and then it has written nothing. The
   lease it takes keeps every pass off the row until it expires.
   */
  lemma OfficerRunsIffUnleased(w: World, eventId: Uuid, batch: nat, o: Replies, now: int)
    requires batch > 0 && !o(w.clock).Fault? && !o(w.clock + 1).Fault?
    ensures var (w', a) := RunOfEvent(w, eventId, batch, o, now);
            var i := RowOf(w.requests, eventId);
            && (a.Ran? <==> i < |w.requests| && !Leased(w.requests[i].claimedAt, now))
            && (a == Busy <==> i < |w.requests| && Leased(w.requests[i].claimedAt, now))
            && (a == NotFound <==> i == |w.requests|)
            && (!a.Ran? ==> TablesUntouched(w, w'))
    ensures var i := RowOf(w.requests, eventId);
            i < |w.requests| && !Leased(w.requests[i].claimedAt, now) ==>
              forall later: int, exclude :: later <= now + LEASE_SECONDS ==>
                  !Due(TryLease(w, eventId, now, o).requests[i], later, exclude)
  {
    hide RunOne;
  }
}
