/** The drain loop, one event's walk, and walks repeated until they complete. */
module LeadRun {
  import opened Wrappers
  import opened Text
  import opened LeadModel
  import opened LeadGrouping
  import opened LeadWalk
  import opened LeadInvariant
  import opened LeadDrain

  // ── the loop's measure ──

  lemma {:induction false} DrainedJoinsEveryMember(w: World, ruleId: Uuid, eventId: Uuid, groups: seq<Group>,
                                                   o: Replies)
    ensures var (w', v) := CommitGroups(w, ruleId, eventId, groups, o);
            && w.junction <= w'.junction
            && w'.registrations == w.registrations
            && (v == Drained ==> forall i, m :: 0 <= i < |groups| && m in groups[i].members ==>
                m.id in JoinedIds(w'.junction, ruleId))
    decreases |groups|
  {
    if groups != [] {
      var (w1, v1) := CommitGroup(w, ruleId, eventId, groups[0], o);
      CommitGroupTables(w, ruleId, eventId, groups[0], o);
      CommitGroupJunction(w, ruleId, eventId, groups[0], o);
      DrainedJoinsEveryMember(w1, ruleId, eventId, groups[1..], o);
      if v1 == Drained {
        MembersJoined(w, w1, GroupId(ruleId, groups[0].slot.key), groups[0].members);
        var w' := CommitGroups(w1, ruleId, eventId, groups[1..], o).0;
        JoinedIdsMonotone(w1.junction, w'.junction, ruleId);
        hide CommitGroup, JoinedIds, AddedTo, Pairs;
        forall i, m | 0 <= i < |groups| && m in groups[i].members
            && CommitGroups(w1, ruleId, eventId, groups[1..], o).1 == Drained
          ensures m.id in JoinedIds(w'.junction, ruleId)
        {
          if i > 0 { assert groups[1..][i - 1] == groups[i]; }
        }
      }
    }
  }

  lemma JoinedIdsMonotone(a: set<(GroupId, Uuid)>, b: set<(GroupId, Uuid)>, ruleId: Uuid)
    requires a <= b
    ensures JoinedIds(a, ruleId) <= JoinedIds(b, ruleId)
  {
  }

  lemma MembersJoined(w: World, w': World, g: GroupId, members: seq<Registration>)
    requires w'.junction == w.junction + Pairs(g, Ids(AddedTo(w, g, members)))
    ensures forall m :: m in members ==> m.id in JoinedIds(w'.junction, g.ruleId)
  {
    MembersInFacts(w.registrations, w.junction, g);
    AddedFacts(members, Ids(GroupMembers(w, g)));
    forall m | m in members ensures m.id in JoinedIds(w'.junction, g.ruleId) {
      if m.id in Ids(GroupMembers(w, g)) {
        var r :| r in GroupMembers(w, g) && r.id == m.id;
        assert (g, m.id) in w.junction;
      } else {
        assert m in AddedTo(w, g, members);
        assert (g, m.id) in Pairs(g, Ids(AddedTo(w, g, members)));
      }
    }
  }

  lemma DrainedBatchJoins(w: World, ruleId: Uuid, eventId: Uuid, rows: seq<Registration>, r: Registration, o: Replies)
    requires r in rows && CommitGroups(w, ruleId, eventId, GroupBy(eventId, rows), o).1 == Drained
    ensures r.id in JoinedIds(CommitGroups(w, ruleId, eventId, GroupBy(eventId, rows), o).0.junction, ruleId)
  {
    var groups := GroupBy(eventId, rows);
    DrainedJoinsEveryMember(w, ruleId, eventId, groups, o);
    GroupByPartitions(eventId, rows);
    hide CommitGroups, GroupBy, JoinedIds, SlotOf;
    assert SlotOf(eventId, r) in Slots(groups);
    var i :| 0 <= i < |groups| && groups[i].slot == SlotOf(eventId, r);
    GroupByFacts(eventId, rows, i);
    assert r in groups[i].members;
  }

  lemma BatchStepShrinks(w: World, rule: Rule, eventId: Uuid, batch: nat, o: Replies)
    requires batch > 0
    ensures var (w', v, more) := BatchStep(w, rule, eventId, batch, o);
            && w'.registrations == w.registrations
            && w.junction <= w'.junction
            && (more ==> |Pending(w', rule, eventId)| < |Pending(w, rule, eventId)|)
  {
    var rows := Take(Pending(w, rule, eventId), batch);
    var counted := Matched(Fetched(w, o), |rows|);
    DrainedJoinsEveryMember(counted, rule.id, eventId, GroupBy(eventId, rows), o);
    var (w', v, more) := BatchStep(w, rule, eventId, batch, o);
    if more {
      DrainedBatchJoins(counted, rule.id, eventId, rows, rows[0], o);
      hide CommitGroups, GroupBy, JoinedIds, PendingRows;
      JoinedIdsMonotone(w.junction, w'.junction, rule.id);
      PendingShrinks(w.registrations, JoinedIds(w.junction, rule.id), JoinedIds(w'.junction, rule.id), rule, eventId);
    }
  }

  // ── one rule, one event ──

  /** The batch loop of one rule. */
  function WalkRule(w: World, rule: Rule, eventId: Uuid, batch: nat, o: Replies): (r: (World, Verdict))
    requires batch > 0
    decreases |Pending(w, rule, eventId)|
  {
    var (w1, v, more) := BatchStep(w, rule, eventId, batch, o);
    BatchStepShrinks(w, rule, eventId, batch, o);
    if more then WalkRule(w1, rule, eventId, batch, o) else (w1, v)
  }

  /** A rule counted as evaluated and its predicates read. */
  function PredicatesRead(w: World, o: Replies): (r: World) {
    Tick(w.(summary := w.summary.(rulesEvaluated := w.summary.rulesEvaluated + 1)), o)
  }

  /** The rules in turn; each reads its predicates first. The first stop ends the walk. */
  function WalkRules(w: World, rules: seq<Rule>, eventId: Uuid, batch: nat, o: Replies): (r: (World, Verdict))
    requires batch > 0
    decreases |rules|
  {
    if rules == [] then (w, Drained)
    else
      if o(w.clock).Fault? then (PredicatesRead(w, o), Failed)
      else
        var (w1, v) := WalkRule(PredicatesRead(w, o), rules[0], eventId, batch, o);
        if v != Drained then (w1, v) else WalkRules(w1, rules[1..], eventId, batch, o)
  }

  /** The event's queue row completed or parked, its lease released either way. */
  function Finished(requests: seq<Request>, eventId: Uuid, error: Option<string>): (r: seq<Request>)
    ensures |r| == |requests|
    ensures forall i :: 0 <= i < |r| ==> r[i].eventId == requests[i].eventId
    ensures forall i :: 0 <= i < |r| && requests[i].eventId == eventId ==>
        r[i] == Request(eventId, error == None, error, None)
    ensures forall i :: 0 <= i < |r| && requests[i].eventId != eventId ==> r[i] == requests[i]
  {
    if requests == [] then []
    else
      var q := requests[0];
      [if q.eventId == eventId then Request(eventId, error == None, error, None) else q]
      + Finished(requests[1..], eventId, error)
  }

  function FinishRequest(w: World, eventId: Uuid, error: Option<string>, o: Replies): (r: World) {
    var t := Tick(w, o);
    if Lands(o, w.clock) then t.(requests := Finished(w.requests, eventId, error)) else t
  }

  /** Walk one event and finish its row: Drained means completed. */
  function RunOne(w: World, eventId: Uuid, batch: nat, o: Replies): (r: (World, Verdict))
    requires batch > 0
  {
    var read := Tick(w, o);
    if o(w.clock).Fault? then (read, Failed)
    else
      var (walked, v) := WalkRules(read, ActiveRules(w.rules, eventId), eventId, batch, o);
      if v == Failed then (walked, Failed)
      else
        var ended := FinishRequest(walked, eventId, if v.Parked? then Some(v.reason) else None, o);
        if o(walked.clock).Fault? then (ended, Failed)
        else
          var s := ended.summary;
          (ended.(summary := if v.Parked? then s.(requestsParked := s.requestsParked + 1)
                             else s.(requestsCompleted := s.requestsCompleted + 1)), v)
  }

  /** The event walked again and again until a walk completes, at most n times. */
  function RetryWalks(w: World, eventId: Uuid, batch: nat, o: Replies, n: nat): (r: (World, bool))
    requires batch > 0
    decreases n
  {
    if n == 0 then (w, false)
    else
      var (w1, v) := RunOne(w, eventId, batch, o);
      if v == Drained then (w1, true) else RetryWalks(w1, eventId, batch, o, n - 1)
  }

  // ── what a walk keeps ──

  lemma BatchIsWalkable(w: World, rule: Rule, eventId: Uuid, batch: nat)
    requires AscendingIds(w.registrations)
    ensures var rows := Take(Pending(w, rule, eventId), batch);
            && Walkable(w, rule.id, rows)
            && AllWalkable(w, rule.id, GroupBy(eventId, rows))
  {
    var rows := Take(Pending(w, rule, eventId), batch);
    PendingRowsFacts(w.registrations, JoinedIds(w.junction, rule.id), rule, eventId);
    hide InDomain;
    assert forall i :: 0 <= i < |rows| ==> rows[i] == Pending(w, rule, eventId)[i];
    var groups := GroupBy(eventId, rows);
    GroupBySeparates(eventId, rows);
    forall i | 0 <= i < |groups| ensures Walkable(w, rule.id, groups[i].members) {
      GroupByFacts(eventId, rows, i);
    }
  }

  /** Counters are not part of the invariants, except that faults only grow. */
  lemma InvIgnoresCounters(w: World, w': World)
    requires Inv(w)
    requires w'.registrations == w.registrations && w'.groups == w.groups
    requires w'.junction == w.junction && w'.log == w.log && w'.faults >= w.faults
    ensures Inv(w')
  {
    hide LastAccepted, Creates, Ids;
    forall g ensures LeadCount(w', g) <= Creates(w'.log, g) <= LeadCount(w', g) + w'.faults {
      assert LeadCount(w', g) == LeadCount(w, g);
    }
  }

  lemma BatchStepKeepsInv(w: World, rule: Rule, eventId: Uuid, batch: nat, o: Replies)
    requires Inv(w)
    ensures Inv(BatchStep(w, rule, eventId, batch, o).0)
  {
    BatchIsWalkable(w, rule, eventId, batch);
    var rows := Take(Pending(w, rule, eventId), batch);
    var counted := Matched(Fetched(w, o), |rows|);
    InvIgnoresCounters(w, Fetched(w, o));
    InvIgnoresCounters(w, counted);
    assert AllWalkable(counted, rule.id, GroupBy(eventId, rows));
    CommitGroupsKeepInv(counted, rule.id, eventId, GroupBy(eventId, rows), o);
    hide Inv, CommitGroups, AllWalkable, Pending, GroupBy;
  }

  lemma {:induction false} WalkRuleKeepsInv(w: World, rule: Rule, eventId: Uuid, batch: nat, o: Replies)
    requires batch > 0 && Inv(w)
    ensures Inv(WalkRule(w, rule, eventId, batch, o).0)
    decreases |Pending(w, rule, eventId)|
  {
    BatchStepKeepsInv(w, rule, eventId, batch, o);
    BatchStepShrinks(w, rule, eventId, batch, o);
    var (w1, v, more) := BatchStep(w, rule, eventId, batch, o);
    hide BatchStep, Inv, Pending;
    if more { WalkRuleKeepsInv(w1, rule, eventId, batch, o); }
  }

  lemma {:induction false} WalkRulesKeepInv(w: World, rules: seq<Rule>, eventId: Uuid, batch: nat, o: Replies)
    requires batch > 0 && Inv(w)
    ensures Inv(WalkRules(w, rules, eventId, batch, o).0)
    decreases |rules|
  {
    if rules != [] {
      var read := PredicatesRead(w, o);
      InvIgnoresCounters(w, read);
      WalkRuleKeepsInv(read, rules[0], eventId, batch, o);
      var (w1, v) := WalkRule(read, rules[0], eventId, batch, o);
      hide WalkRule, Inv;
      WalkRulesKeepInv(w1, rules[1..], eventId, batch, o);
    }
  }

  /** Beyond its walk, a run of one event only touches the queue row and the counters. */
  lemma RunOneIsItsWalk(w: World, eventId: Uuid, batch: nat, o: Replies)
    requires batch > 0
    ensures var (w', v) := RunOne(w, eventId, batch, o);
            var (walked, v1) := WalkRules(Tick(w, o), ActiveRules(w.rules, eventId), eventId, batch, o);
            if o(w.clock).Fault? then w' == Tick(w, o) && v == Failed
            else
              && w'.registrations == walked.registrations && w'.rules == walked.rules
              && w'.groups == walked.groups && w'.junction == walked.junction && w'.log == walked.log
              && w'.faults >= walked.faults
              && (v == Drained ==> v1 == Drained)
              && (v.Parked? ==> v == v1)
              && (v == Failed && v1 != Failed ==> o(walked.clock).Fault?)
              && w'.clock == walked.clock + (if v1 == Failed then 0 else 1)
  {
    hide WalkRules, Finished, ActiveRules;
  }

  lemma RunOneKeepsInv(w: World, eventId: Uuid, batch: nat, o: Replies)
    requires batch > 0 && Inv(w)
    ensures Inv(RunOne(w, eventId, batch, o).0)
  {
    hide RunOne, WalkRules, Inv;
    RunOneIsItsWalk(w, eventId, batch, o);
    InvIgnoresCounters(w, Tick(w, o));
    if !o(w.clock).Fault? {
      var rules := ActiveRules(w.rules, eventId);
      WalkRulesKeepInv(Tick(w, o), rules, eventId, batch, o);
      InvIgnoresCounters(WalkRules(Tick(w, o), rules, eventId, batch, o).0, RunOne(w, eventId, batch, o).0);
    }
  }
}
