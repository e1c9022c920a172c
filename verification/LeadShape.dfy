/** The provenance rows a walk writes: which groups, and what each one says, batch size aside. */
module LeadShape {
  import opened Wrappers
  import opened Text
  import opened LeadModel
  import opened LeadGrouping
  import opened LeadWalk
  import opened LeadInvariant
  import opened LeadDrain
  import opened LeadRun
  import opened LeadTarget
  import opened LeadConvergence

  /** The grouping a key belongs to: an order key is a bare uuid. */
  function GroupingOfKey(key: string): (g: string) {
    if |key| == 36 then PER_ORDER else PER_EVENT_DAY
  }

  function KeysOf(pairs: set<(GroupId, Uuid)>): set<GroupId> {
    set p | p in pairs :: p.0
  }

  /** A provenance table without its lead ids, which the host mints. */
  function Shape(w: World): map<GroupId, (Uuid, string)> {
    map k | k in w.groups :: (w.groups[k].eventId, w.groups[k].grouping)
  }

  /** The provenance table once the event's target is reached. */
  function TargetShape(w: World, eventId: Uuid): map<GroupId, (Uuid, string)> {
    map k | k in w.groups.Keys + KeysOf(Owed(w, ActiveRules(w.rules, eventId), eventId)) ::
      if k in w.groups then (w.groups[k].eventId, w.groups[k].grouping) else (eventId, GroupingOfKey(k.key))
  }

  /** Old rows keep what they say; new rows are for `keys` and say what their key implies. */
  ghost predicate Grows(w: World, w': World, eventId: Uuid, keys: set<GroupId>) {
    && (forall k :: k in w.groups ==>
          && k in w'.groups
          && w'.groups[k].eventId == w.groups[k].eventId && w'.groups[k].grouping == w.groups[k].grouping)
    && (forall k :: k in w'.groups && k !in w.groups ==>
          k in keys && w'.groups[k].eventId == eventId && w'.groups[k].grouping == GroupingOfKey(k.key))
  }

  lemma GrowsTransitive(w: World, w1: World, w2: World, eventId: Uuid, keys: set<GroupId>, keys': set<GroupId>)
    requires Grows(w, w1, eventId, keys) && Grows(w1, w2, eventId, keys') && keys' <= keys
    ensures Grows(w, w2, eventId, keys)
  {
  }

  lemma SlotSaysGrouping(eventId: Uuid, r: Registration)
    ensures SlotOf(eventId, r).grouping == GroupingOfKey(SlotOf(eventId, r).key)
  {
  }

  lemma CommitGroupGrows(w: World, ruleId: Uuid, eventId: Uuid, group: Group, o: Replies)
    requires group.slot.grouping == GroupingOfKey(group.slot.key)
    ensures Grows(w, CommitGroup(w, ruleId, eventId, group, o).0, eventId, {GroupId(ruleId, group.slot.key)})
  {
    CommitGroupTables(w, ruleId, eventId, group, o);
    hide CommitGroup;
  }

  lemma {:induction false} CommitGroupsGrow(w: World, ruleId: Uuid, eventId: Uuid, groups: seq<Group>, o: Replies,
                                            keys: set<GroupId>)
    requires forall g :: g in groups ==>
        g.slot.grouping == GroupingOfKey(g.slot.key) && GroupId(ruleId, g.slot.key) in keys
    ensures Grows(w, CommitGroups(w, ruleId, eventId, groups, o).0, eventId, keys)
    decreases |groups|
  {
    if groups != [] {
      hide CommitGroup, Grows, GroupingOfKey;
      assert groups[0] in groups && forall g :: g in groups[1..] ==> g in groups;
      var w1 := CommitGroup(w, ruleId, eventId, groups[0], o).0;
      CommitGroupGrows(w, ruleId, eventId, groups[0], o);
      GrowsWithMore(w, w1, eventId, {GroupId(ruleId, groups[0].slot.key)}, keys);
      CommitGroupsGrow(w1, ruleId, eventId, groups[1..], o, keys);
      GrowsTransitive(w, w1, CommitGroups(w1, ruleId, eventId, groups[1..], o).0, eventId, keys, keys);
    } else {
      GrowsNothing(w, w, eventId, keys);
    }
  }

  lemma GrowsWithMore(w: World, w': World, eventId: Uuid, keys: set<GroupId>, more: set<GroupId>)
    requires Grows(w, w', eventId, keys) && keys <= more
    ensures Grows(w, w', eventId, more)
  {
  }

  lemma GrowsNothing(w: World, w': World, eventId: Uuid, keys: set<GroupId>)
    requires w'.groups == w.groups
    ensures Grows(w, w', eventId, keys)
  {
  }

  lemma GroupsOfBatchAreOwed(w: World, rule: Rule, eventId: Uuid, batch: nat, g: Group)
    requires g in GroupBy(eventId, Take(Pending(w, rule, eventId), batch))
    ensures g.slot.grouping == GroupingOfKey(g.slot.key)
    ensures GroupId(rule.id, g.slot.key) in KeysOf(OwedBy(w, rule, eventId))
  {
    hide PendingRows, GroupBy, GroupingOfKey;
    var rows := Take(Pending(w, rule, eventId), batch);
    GroupByPartitions(eventId, rows);
    assert g.slot in SlotsOf(eventId, rows) by {
      var i :| 0 <= i < |GroupBy(eventId, rows)| && GroupBy(eventId, rows)[i] == g;
    }
    var r :| r in rows && SlotOf(eventId, r) == g.slot;
    SlotSaysGrouping(eventId, r);
    hide SlotOf;
    assert r in Pending(w, rule, eventId);
    assert HomeOf(rule.id, eventId, r) in OwedBy(w, rule, eventId);
  }

  lemma BatchStepGrows(w: World, rule: Rule, eventId: Uuid, batch: nat, o: Replies)
    ensures Grows(w, BatchStep(w, rule, eventId, batch, o).0, eventId, KeysOf(OwedBy(w, rule, eventId)))
  {
    hide CommitGroups, Grows, GroupBy, KeysOf, OwedBy, GroupingOfKey, Pending;
    var rows := Take(Pending(w, rule, eventId), batch);
    var keys := KeysOf(OwedBy(w, rule, eventId));
    var counted := Matched(Fetched(w, o), |rows|);
    var groups := GroupBy(eventId, rows);
    forall g | g in groups
        ensures g.slot.grouping == GroupingOfKey(g.slot.key) && GroupId(rule.id, g.slot.key) in keys {
      GroupsOfBatchAreOwed(w, rule, eventId, batch, g);
    }
    CommitGroupsGrow(counted, rule.id, eventId, groups, o, keys);
    GrowsNothing(w, w, eventId, keys);
    GrowsNothing(w, Fetched(w, o), eventId, keys);
    GrowsNothing(w, counted, eventId, keys);
    GrowsTransitive(w, counted, CommitGroups(counted, rule.id, eventId, groups, o).0, eventId, keys, keys);
  }

  lemma {:induction false} WalkRuleGrows(w: World, rule: Rule, eventId: Uuid, batch: nat, o: Replies)
    requires batch > 0 && AscendingIds(w.registrations)
    ensures Grows(w, WalkRule(w, rule, eventId, batch, o).0, eventId, KeysOf(OwedBy(w, rule, eventId)))
    decreases |Pending(w, rule, eventId)|
  {
    hide BatchStep, Pending, Grows, OwedBy;
    BatchStepGrows(w, rule, eventId, batch, o);
    BatchStepShrinks(w, rule, eventId, batch, o);
    var (w1, v, more) := BatchStep(w, rule, eventId, batch, o);
    if more {
      BatchStepProgress(w, rule, eventId, batch, o);
      PartialWriteKeepsTotal(w, w1, rule, eventId);
      WalkRuleGrows(w1, rule, eventId, batch, o);
      GrowsTransitive(w, w1, WalkRule(w1, rule, eventId, batch, o).0, eventId,
                      KeysOf(OwedBy(w, rule, eventId)), KeysOf(OwedBy(w1, rule, eventId)));
    }
  }

  lemma {:induction false} WalkRulesGrow(w: World, rules: seq<Rule>, eventId: Uuid, batch: nat, o: Replies)
    requires batch > 0 && AscendingIds(w.registrations) && DistinctRules(rules)
    ensures Grows(w, WalkRules(w, rules, eventId, batch, o).0, eventId, KeysOf(Owed(w, rules, eventId)))
    decreases |rules|
  {
    var keys := KeysOf(Owed(w, rules, eventId));
    var read := PredicatesRead(w, o);
    GrowsNothing(w, w, eventId, keys);
    GrowsNothing(w, read, eventId, keys);
    if rules != [] && !o(w.clock).Fault? {
      hide WalkRule, Pending, Grows, OwedBy;
      SameJunctionSameOwed(w, read, rules, eventId);
      var rule := rules[0];
      var w1 := WalkRule(read, rule, eventId, batch, o).0;
      WalkRuleGrows(read, rule, eventId, batch, o);
      WalkRuleProgress(read, rule, eventId, batch, o);
      assert forall r :: r in rules[1..] ==> r.id != rule.id;
      OwedUnmoved(read, w1, rule, rules[1..], eventId);
      WalkRegistrations(read, w1, rule, eventId);
      WalkRulesGrow(w1, rules[1..], eventId, batch, o);
      GrowsTransitive(w, read, w1, eventId, keys, KeysOf(OwedBy(read, rule, eventId)));
      GrowsTransitive(w, w1, WalkRules(w1, rules[1..], eventId, batch, o).0, eventId, keys,
          KeysOf(Owed(w1, rules[1..], eventId)));
    }
  }

  lemma WalkRegistrations(w: World, w': World, rule: Rule, eventId: Uuid)
    requires Progress(w, w', rule.id, OwedBy(w, rule, eventId))
    ensures w'.registrations == w.registrations
  {
  }

  /**
   The provenance target does not move either, and a completed walk has reached it: which
   rows exist, for which event and under which grouping, owes nothing to the batch size,
   to the replies, or to the walks that parked before.
   */
  lemma WalkKeepsTargetShape(w: World, eventId: Uuid, batch: nat, o: Replies)
    requires batch > 0 && Inv(w) && DistinctRules(w.rules)
    ensures var (w', v) := RunOne(w, eventId, batch, o);
            && TargetShape(w', eventId) == TargetShape(w, eventId)
            && (v == Drained ==> Shape(w') == TargetShape(w, eventId))
  {
    hide RunOne, WalkRules, Inv, Owed, ActiveRules;
    var rules := ActiveRules(w.rules, eventId);
    var (w', v) := RunOne(w, eventId, batch, o);
    assert AscendingIds(w.registrations) by { InvAscends(w); }
    ActiveRulesFacts(w.rules, eventId);
    WalkKeepsTarget(w, eventId, batch, o);
    RunOneKeepsInv(w, eventId, batch, o);
    RunOneIsItsWalk(w, eventId, batch, o);
    RunOneGrows(w, eventId, batch, o);
    JunctionHasRows(w');
    var before, after := KeysOf(Owed(w, rules, eventId)), KeysOf(Owed(w', rules, eventId));
    forall k | k in before ensures k in w'.groups.Keys + after {
      var p :| p in Owed(w, rules, eventId) && p.0 == k;
      assert p in w'.junction + Owed(w', rules, eventId);
    }
    forall k | k in after ensures k in w.groups.Keys + before {
      var p :| p in Owed(w', rules, eventId) && p.0 == k;
      assert p in w.junction + Owed(w, rules, eventId);
      JunctionHasRows(w);
    }
    assert TargetShape(w', eventId).Keys == TargetShape(w, eventId).Keys;
  }

  lemma InvAscends(w: World)
    requires Inv(w)
    ensures AscendingIds(w.registrations)
  {
  }

  lemma JunctionHasRows(w: World)
    requires Inv(w)
    ensures forall p :: p in w.junction ==> p.0 in w.groups && w.groups[p.0].lead.Some?
  {
  }

  lemma RunOneGrows(w: World, eventId: Uuid, batch: nat, o: Replies)
    requires batch > 0 && AscendingIds(w.registrations) && DistinctRules(w.rules)
    ensures Grows(w, RunOne(w, eventId, batch, o).0, eventId, KeysOf(Owed(w, ActiveRules(w.rules, eventId), eventId)))
  {
    hide RunOne, WalkRules, Owed, ActiveRules, Grows, DistinctRules, KeysOf;
    var rules := ActiveRules(w.rules, eventId);
    var keys := KeysOf(Owed(w, rules, eventId));
    ActiveRulesFacts(w.rules, eventId);
    RunOneIsItsWalk(w, eventId, batch, o);
    SameJunctionSameOwed(w, Tick(w, o), rules, eventId);
    GrowsNothing(w, Tick(w, o), eventId, keys);
    if !o(w.clock).Fault? {
      WalkRulesGrow(Tick(w, o), rules, eventId, batch, o);
      var walked := WalkRules(Tick(w, o), rules, eventId, batch, o).0;
      GrowsTransitive(w, Tick(w, o), walked, eventId, keys, keys);
      GrowsNothing(walked, RunOne(w, eventId, batch, o).0, eventId, keys);
      GrowsTransitive(w, walked, RunOne(w, eventId, batch, o).0, eventId, keys, keys);
    }
  }

  /** BATCH INDEPENDENCE: two completed walks of the same state, whatever their batch sizes
      and the leads the host mints, leave the same junction and the same provenance rows. */
  lemma BatchIndependence(w: World, eventId: Uuid, batch1: nat, o1: Replies, batch2: nat, o2: Replies)
    requires batch1 > 0 && batch2 > 0 && Inv(w) && DistinctRules(w.rules)
    requires RunOne(w, eventId, batch1, o1).1 == Drained && RunOne(w, eventId, batch2, o2).1 == Drained
    ensures var w1, w2 := RunOne(w, eventId, batch1, o1).0, RunOne(w, eventId, batch2, o2).0;
            && w1.junction == w2.junction == Target(w, eventId)
            && Shape(w1) == Shape(w2) == TargetShape(w, eventId)
  {
    hide RunOne, Inv, Target, TargetShape, Shape;
    assert AscendingIds(w.registrations) by { InvAscends(w); }
    WalkKeepsTarget(w, eventId, batch1, o1);
    WalkKeepsTarget(w, eventId, batch2, o2);
    WalkKeepsTargetShape(w, eventId, batch1, o1);
    WalkKeepsTargetShape(w, eventId, batch2, o2);
  }
}
