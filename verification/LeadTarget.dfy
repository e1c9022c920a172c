/**
 What an event is owed: the junction rows a walk with nothing in its way would add.
 No walk, however it ends, changes the total of rows written and rows owed.
 */
module LeadTarget {
  import opened Wrappers
  import opened Text
  import opened LeadModel
  import opened LeadGrouping
  import opened LeadWalk
  import opened LeadInvariant
  import opened LeadDrain
  import opened LeadRun

  function OwedBy(w: World, rule: Rule, eventId: Uuid): set<(GroupId, Uuid)> {
    Homes(rule.id, eventId, Pending(w, rule, eventId))
  }

  function Owed(w: World, rules: seq<Rule>, eventId: Uuid): set<(GroupId, Uuid)> {
    if rules == [] then {} else OwedBy(w, rules[0], eventId) + Owed(w, rules[1..], eventId)
  }

  /** The junction once every eligible registration of the event is in its group. */
  function Target(w: World, eventId: Uuid): set<(GroupId, Uuid)> {
    w.junction + Owed(w, ActiveRules(w.rules, eventId), eventId)
  }

  ghost predicate DistinctRules(rules: seq<Rule>) {
    forall i, j :: 0 <= i < j < |rules| ==> rules[i].id != rules[j].id
  }

  // ── a partial write within what is owed ──

  /** Between two worlds one rule's walk of the event wrote rows it owed, and nothing else. */
  ghost predicate Progress(w: World, w': World, ruleId: Uuid, owed: set<(GroupId, Uuid)>) {
    && w'.registrations == w.registrations && w'.rules == w.rules
    && w.junction <= w'.junction <= w.junction + owed
  }

  lemma PartialWriteKeepsTotal(w: World, w': World, rule: Rule, eventId: Uuid)
    requires AscendingIds(w.registrations)
    requires Progress(w, w', rule.id, OwedBy(w, rule, eventId))
    ensures w'.junction + OwedBy(w', rule, eventId) == w.junction + OwedBy(w, rule, eventId)
    ensures OwedBy(w', rule, eventId) <= OwedBy(w, rule, eventId)
  {
    var before, after := Pending(w, rule, eventId), Pending(w', rule, eventId);
    PendingRowsFacts(w.registrations, JoinedIds(w.junction, rule.id), rule, eventId);
    PendingRowsFacts(w.registrations, JoinedIds(w'.junction, rule.id), rule, eventId);
    JoinedIdsMonotone(w.junction, w'.junction, rule.id);
    hide InDomain, SlotOf;
    forall p | p in OwedBy(w', rule, eventId) ensures p in OwedBy(w, rule, eventId) {
      var r :| r in after && p == HomeOf(rule.id, eventId, r);
      assert r in before;
    }
    forall p | p in OwedBy(w, rule, eventId) ensures p in w'.junction + OwedBy(w', rule, eventId) {
      var r :| r in before && p == HomeOf(rule.id, eventId, r);
      if r.id in JoinedIds(w'.junction, rule.id) {
        JoinedMeansHome(w, w', rule, eventId, r);
      } else {
        assert r in after;
      }
    }
  }

  lemma JoinedMeansHome(w: World, w': World, rule: Rule, eventId: Uuid, r: Registration)
    requires AscendingIds(w.registrations)
    requires Progress(w, w', rule.id, OwedBy(w, rule, eventId))
    requires r in Pending(w, rule, eventId) && r.id in JoinedIds(w'.junction, rule.id)
    ensures HomeOf(rule.id, eventId, r) in w'.junction
  {
    PendingRowsFacts(w.registrations, JoinedIds(w.junction, rule.id), rule, eventId);
    hide InDomain, SlotOf;
    var q :| q in w'.junction && q.0.ruleId == rule.id && q.1 == r.id;
    if q !in w.junction {
      var m :| m in Pending(w, rule, eventId) && q == HomeOf(rule.id, eventId, m);
      var i :| 0 <= i < |w.registrations| && w.registrations[i] == m;
      var j :| 0 <= j < |w.registrations| && w.registrations[j] == r;
      assert i == j;
    }
  }

  /** Other rules are owed what they were. */
  lemma OtherRulesUnmoved(w: World, w': World, rule: Rule, other: Rule, eventId: Uuid)
    requires Progress(w, w', rule.id, OwedBy(w, rule, eventId)) && other.id != rule.id
    ensures OwedBy(w', other, eventId) == OwedBy(w, other, eventId)
  {
    hide PendingRows, SlotOf;
    assert JoinedIds(w'.junction, other.id) == JoinedIds(w.junction, other.id) by {
      forall x | x in JoinedIds(w'.junction, other.id) ensures x in JoinedIds(w.junction, other.id) {
        var q :| q in w'.junction && q.0.ruleId == other.id && q.1 == x;
        assert q in w.junction;
      }
    }
  }

  lemma {:induction false} OwedUnmoved(w: World, w': World, rule: Rule, others: seq<Rule>, eventId: Uuid)
    requires Progress(w, w', rule.id, OwedBy(w, rule, eventId))
    requires forall r :: r in others ==> r.id != rule.id
    ensures Owed(w', others, eventId) == Owed(w, others, eventId)
  {
    if others != [] {
      hide Progress, OwedBy;
      assert others[0] in others && forall r :: r in others[1..] ==> r in others;
      OtherRulesUnmoved(w, w', rule, others[0], eventId);
      OwedUnmoved(w, w', rule, others[1..], eventId);
    }
  }

  lemma ProgressTransitive(w: World, w1: World, w2: World, rule: Rule, eventId: Uuid)
    requires AscendingIds(w.registrations)
    requires Progress(w, w1, rule.id, OwedBy(w, rule, eventId))
    requires Progress(w1, w2, rule.id, OwedBy(w1, rule, eventId))
    ensures Progress(w, w2, rule.id, OwedBy(w, rule, eventId))
  {
    PartialWriteKeepsTotal(w, w1, rule, eventId);
    hide OwedBy;
  }

  // ── the walk makes progress, and only progress ──

  lemma {:induction false} PairsOfPrefixWithin(ruleId: Uuid, groups: seq<Group>, n: nat)
    requires n <= |groups|
    ensures PairsOf(ruleId, groups[..n]) <= PairsOf(ruleId, groups)
  {
    PairsOfMembership(ruleId, groups[..n]);
    PairsOfMembership(ruleId, groups);
    hide PairsOf;
    forall p | p in PairsOf(ruleId, groups[..n]) ensures p in PairsOf(ruleId, groups) {
      var i :| 0 <= i < n && p.0 == GroupId(ruleId, groups[..n][i].slot.key) && p.1 in Ids(groups[..n][i].members);
      assert groups[..n][i] == groups[i];
    }
  }

  lemma CommitBatchProgress(w: World, rule: Rule, eventId: Uuid, rows: seq<Registration>, o: Replies)
    requires AllWalkable(w, rule.id, GroupBy(eventId, rows))
    ensures var w' := CommitGroups(w, rule.id, eventId, GroupBy(eventId, rows), o).0;
            SameTables(w, w') && w.junction <= w'.junction <= w.junction + Homes(rule.id, eventId, rows)
  {
    hide CommitGroups, GroupBy, PairsOf, Committed, AllWalkable, Homes;
    var groups := GroupBy(eventId, rows);
    CommitGroupsTables(w, rule.id, eventId, groups, o);
    CommitGroupsJunction(w, rule.id, eventId, groups, o);
    var n := Committed(w, rule.id, eventId, groups, o);
    PairsOfPrefixWithin(rule.id, groups, n);
    if n < |groups| { PairsOfPrefixWithin(rule.id, groups, n + 1); }
    GroupByHomes(rule.id, eventId, rows);
  }

  lemma BatchStepProgress(w: World, rule: Rule, eventId: Uuid, batch: nat, o: Replies)
    requires AscendingIds(w.registrations)
    ensures Progress(w, BatchStep(w, rule, eventId, batch, o).0, rule.id, OwedBy(w, rule, eventId))
  {
    var rows := Take(Pending(w, rule, eventId), batch);
    var counted := Matched(Fetched(w, o), |rows|);
    BatchIsWalkable(w, rule, eventId, batch);
    assert AllWalkable(counted, rule.id, GroupBy(eventId, rows));
    CommitBatchProgress(counted, rule, eventId, rows, o);
    hide CommitGroups, GroupBy, AllWalkable, HomeOf, Pending;
    assert Homes(rule.id, eventId, rows) <= OwedBy(w, rule, eventId) by {
      assert forall r :: r in rows ==> r in Pending(w, rule, eventId);
    }
    hide Homes, OwedBy;
  }

  lemma {:induction false} WalkRuleProgress(w: World, rule: Rule, eventId: Uuid, batch: nat, o: Replies)
    requires batch > 0 && AscendingIds(w.registrations)
    ensures Progress(w, WalkRule(w, rule, eventId, batch, o).0, rule.id, OwedBy(w, rule, eventId))
    decreases |Pending(w, rule, eventId)|
  {
    BatchStepProgress(w, rule, eventId, batch, o);
    BatchStepShrinks(w, rule, eventId, batch, o);
    var (w1, v, more) := BatchStep(w, rule, eventId, batch, o);
    if more {
      hide BatchStep, OwedBy, Pending;
      WalkRuleProgress(w1, rule, eventId, batch, o);
      ProgressTransitive(w, w1, WalkRule(w1, rule, eventId, batch, o).0, rule, eventId);
      hide Progress;
    }
  }

  lemma BatchStepDrains(w: World, rule: Rule, eventId: Uuid, batch: nat, o: Replies)
    requires batch > 0
    ensures var (w', v, more) := BatchStep(w, rule, eventId, batch, o);
            v == Drained && !more ==> Pending(w', rule, eventId) == []
  {
    var (w', v, more) := BatchStep(w, rule, eventId, batch, o);
    if v == Drained && !more {
      var all := Pending(w, rule, eventId);
      var rows := Take(all, batch);
      assert rows == all;
      var counted := Matched(Fetched(w, o), |rows|);
      var left := Pending(w', rule, eventId);
      BatchStepShrinks(w, rule, eventId, batch, o);
      PendingRowsFacts(w.registrations, JoinedIds(w.junction, rule.id), rule, eventId);
      PendingRowsFacts(w.registrations, JoinedIds(w'.junction, rule.id), rule, eventId);
      JoinedIdsMonotone(w.junction, w'.junction, rule.id);
      if left != [] {
        assert left[0] in left;
        assert left[0] in all by { hide InDomain, PendingRows; }
        hide PendingRows, GroupBy, CommitGroups, InDomain, JoinedIds;
        DrainedBatchJoins(counted, rule.id, eventId, rows, left[0], o);
        assert false;
      }
    }
  }

  lemma {:induction false} WalkRuleDrains(w: World, rule: Rule, eventId: Uuid, batch: nat, o: Replies)
    requires batch > 0
    ensures var (w', v) := WalkRule(w, rule, eventId, batch, o);
            v == Drained ==> Pending(w', rule, eventId) == []
    decreases |Pending(w, rule, eventId)|
  {
    BatchStepDrains(w, rule, eventId, batch, o);
    BatchStepShrinks(w, rule, eventId, batch, o);
    var (w1, v, more) := BatchStep(w, rule, eventId, batch, o);
    hide BatchStep, Pending;
    if more { WalkRuleDrains(w1, rule, eventId, batch, o); }
  }

  function RuleIds(rules: seq<Rule>): set<Uuid> {
    set r | r in rules :: r.id
  }

  lemma FirstRuleKeepsTotal(w: World, w1: World, rules: seq<Rule>, eventId: Uuid)
    requires rules != [] && DistinctRules(rules) && AscendingIds(w.registrations)
    requires Progress(w, w1, rules[0].id, OwedBy(w, rules[0], eventId))
    ensures w1.junction + Owed(w1, rules, eventId) == w.junction + Owed(w, rules, eventId)
    ensures forall q :: q in w1.junction && q !in w.junction ==> q.0.ruleId in RuleIds(rules)
  {
    PartialWriteKeepsTotal(w, w1, rules[0], eventId);
    assert forall r :: r in rules[1..] ==> r.id != rules[0].id;
    OwedUnmoved(w, w1, rules[0], rules[1..], eventId);
    hide OwedBy;
    assert forall q :: q in w1.junction && q !in w.junction ==> q.0.ruleId == rules[0].id by {
      NewPairsNamed(w, w1, rules[0], eventId);
    }
    assert rules[0].id in RuleIds(rules);
  }

  lemma LaterRulesKeepTotal(w: World, w': World, rules: seq<Rule>, eventId: Uuid)
    requires rules != [] && DistinctRules(rules)
    requires w'.registrations == w.registrations && w.junction <= w'.junction
    requires forall q :: q in w'.junction && q !in w.junction ==> q.0.ruleId in RuleIds(rules[1..])
    requires w'.junction + Owed(w', rules[1..], eventId) == w.junction + Owed(w, rules[1..], eventId)
    ensures w'.junction + Owed(w', rules, eventId) == w.junction + Owed(w, rules, eventId)
    ensures OwedBy(w', rules[0], eventId) == OwedBy(w, rules[0], eventId)
    ensures RuleIds(rules[1..]) <= RuleIds(rules)
  {
    hide PendingRows, SlotOf, Homes;
    var rule := rules[0];
    assert rule.id !in RuleIds(rules[1..]) && RuleIds(rules[1..]) <= RuleIds(rules);
    assert JoinedIds(w'.junction, rule.id) == JoinedIds(w.junction, rule.id);
    assert OwedBy(w', rule, eventId) == OwedBy(w, rule, eventId);
    hide OwedBy;
  }

  /** Whatever the host replies, rows written and rows owed total the same; a drained walk owes nothing. */
  lemma {:induction false} WalkRulesKeepTotal(w: World, rules: seq<Rule>, eventId: Uuid, batch: nat, o: Replies)
    requires batch > 0 && AscendingIds(w.registrations) && DistinctRules(rules)
    ensures var (w', v) := WalkRules(w, rules, eventId, batch, o);
            && w'.registrations == w.registrations && w'.rules == w.rules && w.junction <= w'.junction
            && w'.junction + Owed(w', rules, eventId) == w.junction + Owed(w, rules, eventId)
            && (v == Drained ==> Owed(w', rules, eventId) == {})
            && (forall q :: q in w'.junction && q !in w.junction ==> q.0.ruleId in RuleIds(rules))
    decreases |rules|
  {
    if rules != [] {
      var read := PredicatesRead(w, o);
      SameJunctionSameOwed(w, read, rules, eventId);
      if !o(w.clock).Fault? {
        var (w1, v1) := WalkRule(read, rules[0], eventId, batch, o);
        WalkRuleProgress(read, rules[0], eventId, batch, o);
        WalkRuleDrains(read, rules[0], eventId, batch, o);
        FirstRuleKeepsTotal(read, w1, rules, eventId);
        if v1 == Drained {
          assert OwedBy(w1, rules[0], eventId) == {};
          WalkRulesKeepTotal(w1, rules[1..], eventId, batch, o);
          var w' := WalkRules(w1, rules[1..], eventId, batch, o).0;
          LaterRulesKeepTotal(w1, w', rules, eventId);
          hide WalkRule, OwedBy, RuleIds, DistinctRules;
        } else {
          hide WalkRule, OwedBy, RuleIds, DistinctRules, Owed;
        }
      }
    }
  }

  lemma {:induction false} SameJunctionSameOwed(w: World, w': World, rules: seq<Rule>, eventId: Uuid)
    requires w'.registrations == w.registrations && w'.junction == w.junction
    ensures Owed(w', rules, eventId) == Owed(w, rules, eventId)
  {
    if rules != [] { SameJunctionSameOwed(w, w', rules[1..], eventId); }
  }

  lemma NewPairsNamed(w: World, w': World, rule: Rule, eventId: Uuid)
    requires Progress(w, w', rule.id, OwedBy(w, rule, eventId))
    ensures forall q :: q in w'.junction && q !in w.junction ==> q.0.ruleId == rule.id
  {
  }
}
