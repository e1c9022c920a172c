/** Parking and retrying converge; a completed event stays quiet. */
module LeadConvergence {
  import opened Wrappers
  import opened Text
  import opened LeadModel
  import opened LeadGrouping
  import opened LeadWalk
  import opened LeadRun
  import opened LeadTarget

  lemma {:induction false} ActiveRulesFacts(rules: seq<Rule>, eventId: Uuid)
    ensures forall r :: r in ActiveRules(rules, eventId) <==> r in rules && Applies(r, eventId)
    ensures DistinctRules(rules) ==> DistinctRules(ActiveRules(rules, eventId))
  {
    if rules != [] {
      hide Applies;
      var tail := rules[1..];
      assert rules == [rules[0]] + tail;
      ActiveRulesFacts(tail, eventId);
      var a := ActiveRules(tail, eventId);
      assert forall i :: 0 <= i < |a| ==> a[i] in tail;
    }
  }

  /** One walk, whatever the host replies: the event's target does not move, and a
      completed walk has reached it. */
  lemma WalkKeepsTarget(w: World, eventId: Uuid, batch: nat, o: Replies)
    requires batch > 0 && AscendingIds(w.registrations) && DistinctRules(w.rules)
    ensures var (w', v) := RunOne(w, eventId, batch, o);
            && w'.registrations == w.registrations && w'.rules == w.rules
            && w.junction <= w'.junction
            && Target(w', eventId) == Target(w, eventId)
            && (v == Drained ==>
                w'.junction == Target(w, eventId) && Owed(w', ActiveRules(w.rules, eventId), eventId) == {})
  {
    hide RunOne, WalkRules, Owed, DistinctRules, ActiveRules;
    var rules := ActiveRules(w.rules, eventId);
    ActiveRulesFacts(w.rules, eventId);
    RunOneIsItsWalk(w, eventId, batch, o);
    SameJunctionSameOwed(w, Tick(w, o), rules, eventId);
    if !o(w.clock).Fault? {
      WalkRulesKeepTotal(Tick(w, o), rules, eventId, batch, o);
      var walked := WalkRules(Tick(w, o), rules, eventId, batch, o).0;
      SameJunctionSameOwed(walked, RunOne(w, eventId, batch, o).0, rules, eventId);
    }
  }

  // ── the reply that stopped a walk ──

  /** Where a walk that did not drain met its bad reply. */
  ghost predicate StoppedAt(w: World, w': World, v: Verdict, o: Replies) {
    && w.clock <= w'.clock
    && (v != Drained ==> exists t :: w.clock <= t < w'.clock && !o(t).Accept?)
  }

  lemma CommitGroupStops(w: World, ruleId: Uuid, eventId: Uuid, group: Group, o: Replies)
    ensures var (w', v) := CommitGroup(w, ruleId, eventId, group, o);
            StoppedAt(w, w', v, o)
  {
    hide GroupMembers, Added, Ids;
    var (w', v) := CommitGroup(w, ruleId, eventId, group, o);
    if v != Drained {
      assert w.clock <= w'.clock - 1 < w'.clock;
      assert !o(w'.clock - 1).Accept?;
    }
  }

  lemma {:induction false} CommitGroupsStop(w: World, ruleId: Uuid, eventId: Uuid, groups: seq<Group>, o: Replies)
    ensures var (w', v) := CommitGroups(w, ruleId, eventId, groups, o);
            StoppedAt(w, w', v, o)
    decreases |groups|
  {
    if groups != [] {
      CommitGroupStops(w, ruleId, eventId, groups[0], o);
      CommitGroupsStop(CommitGroup(w, ruleId, eventId, groups[0], o).0, ruleId, eventId, groups[1..], o);
      hide CommitGroup;
    }
  }

  lemma {:induction false} WalkRuleStops(w: World, rule: Rule, eventId: Uuid, batch: nat, o: Replies)
    requires batch > 0 && WellFormed(rule)
    ensures var (w', v) := WalkRule(w, rule, eventId, batch, o);
            StoppedAt(w, w', v, o)
    decreases |Pending(w, rule, eventId)|
  {
    var rows := Take(Pending(w, rule, eventId), batch);
    CommitGroupsStop(Matched(Fetched(w, o), |rows|), rule.id, eventId, GroupBy(eventId, rows), o);
    BatchStepShrinks(w, rule, eventId, batch, o);
    var (w1, v, more) := BatchStep(w, rule, eventId, batch, o);
    assert StoppedAt(w, w1, v, o) by {
      hide CommitGroups, GroupBy, Pending;
      if o(w.clock).Fault? { assert w.clock <= w.clock < w1.clock && !o(w.clock).Accept?; }
    }
    hide BatchStep, Pending;
    if more { WalkRuleStops(w1, rule, eventId, batch, o); }
  }

  lemma {:induction false} WalkRulesStop(w: World, rules: seq<Rule>, eventId: Uuid, batch: nat, o: Replies)
    requires batch > 0 && forall r :: r in rules ==> WellFormed(r)
    ensures var (w', v) := WalkRules(w, rules, eventId, batch, o);
            StoppedAt(w, w', v, o)
    decreases |rules|
  {
    if rules != [] {
      var read := PredicatesRead(w, o);
      assert read.clock == w.clock + 1;
      if !o(w.clock).Fault? {
        assert rules[0] in rules && forall r :: r in rules[1..] ==> r in rules;
        WalkRuleStops(read, rules[0], eventId, batch, o);
        WalkRulesStop(WalkRule(read, rules[0], eventId, batch, o).0, rules[1..], eventId, batch, o);
        hide WalkRule, WellFormed;
      }
    }
  }

  lemma RunOneStops(w: World, eventId: Uuid, batch: nat, o: Replies)
    requires batch > 0 && forall r :: r in ActiveRules(w.rules, eventId) ==> WellFormed(r)
    ensures var (w', v) := RunOne(w, eventId, batch, o);
            StoppedAt(w, w', v, o)
  {
    hide RunOne, WalkRules, WellFormed, ActiveRules;
    var rules := ActiveRules(w.rules, eventId);
    WalkRulesStop(Tick(w, o), rules, eventId, batch, o);
    RunOneIsItsWalk(w, eventId, batch, o);
    var (walked, v1) := WalkRules(Tick(w, o), rules, eventId, batch, o);
    var (w', v) := RunOne(w, eventId, batch, o);
    if o(w.clock).Fault? {
      assert w.clock <= w.clock < w'.clock;
    } else if v1 == Drained && v != Drained {
      assert w.clock <= walked.clock < w'.clock && !o(walked.clock).Accept?;
    }
  }

  // ── the theorem ──

  /**
   PARK AND RETRY. If every reply from here on is an acceptance except those at the moments in `bad`
   (refusals, faults and crashes alike), and the event's active rules are in the engine's vocabulary, at
   most |bad| walks fail to complete, the next one completes, and the junction is then the target.
   */
  lemma {:induction false} ParkRetryConverges(w: World, eventId: Uuid, batch: nat, o: Replies, bad: set<nat>)
    requires batch > 0 && AscendingIds(w.registrations) && DistinctRules(w.rules)
    requires forall r :: r in ActiveRules(w.rules, eventId) ==> WellFormed(r)
    requires forall t :: t >= w.clock && t !in bad ==> o(t).Accept?
    ensures var (w', completed) := RetryWalks(w, eventId, batch, o, |bad| + 1);
            && completed
            && w'.junction == Target(w, eventId)
            && Owed(w', ActiveRules(w'.rules, eventId), eventId) == {}
    decreases |bad|
  {
    hide RunOne, Target, Owed, WellFormed, DistinctRules, AscendingIds, ActiveRules;
    var (w1, v) := RunOne(w, eventId, batch, o);
    WalkKeepsTarget(w, eventId, batch, o);
    RunOneStops(w, eventId, batch, o);
    if v != Drained {
      var t :| w.clock <= t < w1.clock && !o(t).Accept?;
      assert t in bad && |bad - {t}| == |bad| - 1;
      ParkRetryConverges(w1, eventId, batch, o, bad - {t});
    }
  }

  /** The junction a retried event ends with is the one a single undisturbed walk gives. */
  lemma ConvergesToUndisturbed(w: World, eventId: Uuid, batch: nat, o: Replies, bad: set<nat>, batch': nat, o': Replies)
    requires batch > 0 && batch' > 0 && AscendingIds(w.registrations) && DistinctRules(w.rules)
    requires forall r :: r in ActiveRules(w.rules, eventId) ==> WellFormed(r)
    requires forall t :: t >= w.clock && t !in bad ==> o(t).Accept?
    requires forall t :: o'(t).Accept?
    ensures RunOne(w, eventId, batch', o').1 == Drained
    ensures RetryWalks(w, eventId, batch, o, |bad| + 1).0.junction == RunOne(w, eventId, batch', o').0.junction
  {
    ParkRetryConverges(w, eventId, batch, o, bad);
    WalkKeepsTarget(w, eventId, batch', o');
    RunOneStops(w, eventId, batch', o');
    hide RunOne, RetryWalks, Target;
  }

  // ── a re-run ──

  lemma {:induction false} NothingOwedNothingDone(w: World, rules: seq<Rule>, eventId: Uuid, batch: nat, o: Replies)
    requires batch > 0 && Owed(w, rules, eventId) == {}
    ensures var w' := WalkRules(w, rules, eventId, batch, o).0;
            w'.log == w.log && w'.groups == w.groups && w'.junction == w.junction && w'.registrations == w.registrations
    decreases |rules|
  {
    if rules != [] {
      var rule, read := rules[0], PredicatesRead(w, o);
      var p := Pending(w, rule, eventId);
      assert OwedBy(w, rule, eventId) == {};
      assert Pending(read, rule, eventId) == [];
      var (w1, v) := WalkRule(read, rule, eventId, batch, o);
      assert w1 == BatchStep(read, rule, eventId, batch, o).0;
      assert w1.log == w.log && w1.groups == w.groups && w1.junction == w.junction
          && w1.registrations == w.registrations;
      SameJunctionSameOwed(w, w1, rules[1..], eventId);
      hide WalkRule, BatchStep, OwedBy;
      NothingOwedNothingDone(w1, rules[1..], eventId, batch, o);
    }
  }

  /** A completed event walked again, whatever the host would reply, calls no sink and writes no group. */
  lemma RerunIsQuiet(w: World, eventId: Uuid, batch: nat, o: Replies, o': Replies)
    requires batch > 0 && AscendingIds(w.registrations) && DistinctRules(w.rules)
    requires RunOne(w, eventId, batch, o).1 == Drained
    ensures var w1 := RunOne(w, eventId, batch, o).0;
            var w2 := RunOne(w1, eventId, batch, o').0;
            w2.log == w1.log && w2.groups == w1.groups && w2.junction == w1.junction
  {
    hide RunOne, WalkRules, Owed, Target, DistinctRules, ActiveRules;
    WalkKeepsTarget(w, eventId, batch, o);
    var w1 := RunOne(w, eventId, batch, o).0;
    var rules := ActiveRules(w1.rules, eventId);
    SameJunctionSameOwed(w1, Tick(w1, o'), rules, eventId);
    NothingOwedNothingDone(Tick(w1, o'), rules, eventId, batch, o');
    RunOneIsItsWalk(w1, eventId, batch, o');
  }
}
