/** What an undisturbed walk counts: fetches, matches, groups, leads and sink calls. */
module LeadAccounting {
  import opened Wrappers
  import opened Text
  import opened LeadModel
  import opened LeadGrouping
  import opened LeadWalk
  import opened LeadInvariant
  import opened LeadDrain
  import opened LeadRun

  ghost predicate Accepting(o: Replies, from: nat) {
    forall t :: t >= from ==> o(t).Accept?
  }

  /** n more groups written, each by one accepted call, each counted once on both sides. */
  ghost predicate Booked(w: World, w': World, n: nat) {
    var s, s' := w.summary, w'.summary;
    && w.clock <= w'.clock
    && |w'.log| == |w.log| + n
    && AcceptedCalls(w'.log) == AcceptedCalls(w.log) + n
    && s'.groupsCreated + s'.groupsGrown == s.groupsCreated + s.groupsGrown + n
    && s'.leadsCreated - s.leadsCreated == s'.groupsCreated - s.groupsCreated
    && s'.leadsUpdated - s.leadsUpdated == s'.groupsGrown - s.groupsGrown
  }

  lemma BookedBoth(w: World, w1: World, w2: World, m: nat, n: nat)
    requires Booked(w, w1, m) && Booked(w1, w2, n)
    ensures Booked(w, w2, m + n)
  {
    hide AcceptedCalls;
  }

  lemma AcceptedOfAppend(log: seq<SinkCall>, c: SinkCall)
    ensures AcceptedCalls(log + [c]) == AcceptedCalls(log) + if c.accepted then 1 else 0
  {
    assert (log + [c])[..|log|] == log;
  }

  lemma SinkStepBooks(w: World, g: GroupId, call: SinkCall, added: seq<Registration>, o: Replies)
    requires Accepting(o, w.clock) && added != []
    ensures var (w', v) := CreateLeadStep(w, g, call, added, o);
            v == Drained && Booked(w, w', 1) && w'.fetches == w.fetches
            && w'.summary.registrationsMatched == w.summary.registrationsMatched
    ensures var (w', v) := UpdateLeadStep(w, g, call, added, o);
            v == Drained && Booked(w, w', 1) && w'.fetches == w.fetches
            && w'.summary.registrationsMatched == w.summary.registrationsMatched
  {
    hide Ids, AcceptedCalls;
    AcceptedOfAppend(w.log, CallSink(w, call, o).log[|w.log|]);
  }

  lemma CommitGroupBooks(w: World, ruleId: Uuid, eventId: Uuid, group: Group, o: Replies)
    requires Accepting(o, w.clock) && group.members != [] && Walkable(w, ruleId, group.members)
    ensures var (w', v) := CommitGroup(w, ruleId, eventId, group, o);
            && v == Drained
            && Booked(w, w', 1)
            && w'.summary.registrationsMatched == w.summary.registrationsMatched
            && w'.fetches == w.fetches
  {
    hide GroupMembers, Added, Ids, CallFor, CreateLeadStep, UpdateLeadStep, AcceptedCalls;
    var g := GroupId(ruleId, group.slot.key);
    var up := UpsertProvenance(w, g, eventId, group.slot.grouping, o);
    var read := Tick(up, o);
    var known := GroupMembers(read, g);
    WalkableAllAdded(read, g, group.members);
    var call := CallFor(up.groups[g].lead, g, eventId, group.slot.grouping, known, group.members);
    SinkStepBooks(read, g, call, group.members, o);
  }

  lemma {:induction false} CommitGroupsBook(w: World, ruleId: Uuid, eventId: Uuid, groups: seq<Group>, o: Replies)
    requires Accepting(o, w.clock) && AllWalkable(w, ruleId, groups)
    requires forall i :: 0 <= i < |groups| ==> groups[i].members != []
    ensures var (w', v) := CommitGroups(w, ruleId, eventId, groups, o);
            && v == Drained
            && Booked(w, w', |groups|)
            && w'.summary.registrationsMatched == w.summary.registrationsMatched
            && w'.fetches == w.fetches
    decreases |groups|
  {
    if groups != [] {
      hide CommitGroup, AllWalkable, AcceptedCalls, Walkable;
      FirstIsWalkable(w, ruleId, groups);
      CommitGroupBooks(w, ruleId, eventId, groups[0], o);
      CommitLeavesRestWalkable(w, ruleId, eventId, groups, o);
      var w1 := CommitGroup(w, ruleId, eventId, groups[0], o).0;
      CommitGroupsBook(w1, ruleId, eventId, groups[1..], o);
      BookedBoth(w, w1, CommitGroups(w1, ruleId, eventId, groups[1..], o).0, 1, |groups| - 1);
    }
  }

  lemma CommitBatchBooks(w: World, rule: Rule, eventId: Uuid, rows: seq<Registration>, o: Replies)
    requires Accepting(o, w.clock) && AllWalkable(w, rule.id, GroupBy(eventId, rows))
    ensures var groups := GroupBy(eventId, rows);
            var (w', v) := CommitGroups(w, rule.id, eventId, groups, o);
            && v == Drained
            && Booked(w, w', |groups|)
            && w'.summary.registrationsMatched == w.summary.registrationsMatched
            && w'.fetches == w.fetches
            && w'.registrations == w.registrations
            && w'.junction == w.junction + Homes(rule.id, eventId, rows)
  {
    hide CommitGroups, GroupBy, AllWalkable, Homes, PairsOf, Committed, Booked;
    var groups := GroupBy(eventId, rows);
    forall i | 0 <= i < |groups| ensures groups[i].members != [] {
      GroupNotEmpty(eventId, rows, i);
    }
    CommitGroupsBook(w, rule.id, eventId, groups, o);
    CommitGroupsTables(w, rule.id, eventId, groups, o);
    CommitGroupsJunction(w, rule.id, eventId, groups, o);
    GroupByHomes(rule.id, eventId, rows);
    assert groups[..Committed(w, rule.id, eventId, groups, o)] == groups;
  }

  lemma PendingAfterBatch(w: World, w': World, rule: Rule, eventId: Uuid, k: nat)
    requires AscendingIds(w.registrations) && w'.registrations == w.registrations
    requires k <= |Pending(w, rule, eventId)|
    requires w'.junction == w.junction + Homes(rule.id, eventId, Pending(w, rule, eventId)[..k])
    ensures Pending(w', rule, eventId) == Pending(w, rule, eventId)[k..]
  {
    hide PendingRows, Homes, JoinedIds, Ids;
    var rows := Pending(w, rule, eventId)[..k];
    JoinedIdsOfHomes(rule.id, eventId, rows);
    JoinedIdsGrow(w.junction, Homes(rule.id, eventId, rows), rule.id);
    PendingAfterPrefix(w.registrations, JoinedIds(w.junction, rule.id), rule, eventId, k);
  }

  lemma BatchStepBooks(w: World, rule: Rule, eventId: Uuid, batch: nat, o: Replies)
    requires batch > 0 && Accepting(o, w.clock) && WellFormed(rule) && AscendingIds(w.registrations)
    ensures var p := Pending(w, rule, eventId);
            var rows := Take(p, batch);
            var (w', v, more) := BatchStep(w, rule, eventId, batch, o);
            && v == Drained
            && (more <==> |p| >= batch)
            && Booked(w, w', |GroupBy(eventId, rows)|)
            && w'.summary.registrationsMatched == w.summary.registrationsMatched + |rows|
            && w'.fetches == w.fetches + 1
            && w'.registrations == w.registrations
            && Pending(w', rule, eventId) == p[|rows|..]
  {
    hide Pending, CommitGroups, WellFormed, AllWalkable, GroupBy, Homes;
    var p := Pending(w, rule, eventId);
    var rows := Take(p, batch);
    var counted := Matched(Fetched(w, o), |rows|);
    BatchIsWalkable(w, rule, eventId, batch);
    StillWalkable(w, counted, rule.id, GroupBy(eventId, rows));
    CommitBatchBooks(counted, rule, eventId, rows, o);
    var w' := BatchStep(w, rule, eventId, batch, o).0;
    assert rows == p[..|rows|];
    assert w'.junction == w.junction + Homes(rule.id, eventId, rows);
    PendingAfterBatch(w, w', rule, eventId, |rows|);
    if rows == [] { NoGroups(eventId, rows); }
  }

  lemma NoGroups(eventId: Uuid, rows: seq<Registration>)
    requires rows == []
    ensures GroupBy(eventId, rows) == []
  {
  }

  lemma StillWalkable(w: World, w': World, ruleId: Uuid, groups: seq<Group>)
    requires AllWalkable(w, ruleId, groups) && w'.registrations == w.registrations && w'.junction == w.junction
    ensures AllWalkable(w', ruleId, groups)
  {
    forall i | 0 <= i < |groups| ensures Walkable(w', ruleId, groups[i].members) {
      assert Walkable(w, ruleId, groups[i].members);
    }
  }

  lemma GroupNotEmpty(eventId: Uuid, rows: seq<Registration>, i: nat)
    requires i < |GroupBy(eventId, rows)|
    ensures GroupBy(eventId, rows)[i].members != []
  {
    hide SlotOf, GroupBy, Select;
    GroupByPartitions(eventId, rows);
    GroupByFacts(eventId, rows, i);
    var slot := GroupBy(eventId, rows)[i].slot;
    assert slot in SlotsOf(eventId, rows);
    var r :| r in rows && SlotOf(eventId, r) == slot;
    assert r in GroupBy(eventId, rows)[i].members;
  }

  lemma JoinedIdsOfHomes(ruleId: Uuid, eventId: Uuid, rows: seq<Registration>)
    ensures JoinedIds(Homes(ruleId, eventId, rows), ruleId) == Ids(rows)
  {
    hide SlotOf;
    forall x | x in Ids(rows) ensures x in JoinedIds(Homes(ruleId, eventId, rows), ruleId) {
      var r :| r in rows && r.id == x;
      assert HomeOf(ruleId, eventId, r) in Homes(ruleId, eventId, rows);
    }
  }

  /**
   DRAIN AND ACCOUNTING. With nothing refused, a rule with N eligible rows is drained in
   N / batch + 1 fetches; N registrations are matched; every group written is one
   accepted sink call, counted as created or grown and as a lead created or updated.
   */
  lemma {:induction false} WalkRuleAccounts(w: World, rule: Rule, eventId: Uuid, batch: nat, o: Replies)
    requires batch > 0 && Accepting(o, w.clock) && WellFormed(rule) && AscendingIds(w.registrations)
    ensures var n := |Pending(w, rule, eventId)|;
            var (w', v) := WalkRule(w, rule, eventId, batch, o);
            && v == Drained
            && Pending(w', rule, eventId) == []
            && w'.fetches == w.fetches + n / batch + 1
            && w'.summary.registrationsMatched == w.summary.registrationsMatched + n
            && |w'.log| >= |w.log|
            && Booked(w, w', |w'.log| - |w.log|)
    decreases |Pending(w, rule, eventId)|
  {
    hide BatchStep, Pending, WellFormed;
    var p := Pending(w, rule, eventId);
    BatchStepBooks(w, rule, eventId, batch, o);
    BatchStepShrinks(w, rule, eventId, batch, o);
    var (w1, v, more) := BatchStep(w, rule, eventId, batch, o);
    hide AcceptedCalls, GroupBy;
    if more {
      WalkRuleAccounts(w1, rule, eventId, batch, o);
      OneBatchLess(|p|, batch);
      var w2 := WalkRule(w1, rule, eventId, batch, o).0;
      BookedBoth(w, w1, w2, |w1.log| - |w.log|, |w2.log| - |w1.log|);
      hide Booked;
    } else {
      NoFullBatch(|p|, batch);
    }
  }

  lemma AtLeast(d: nat, k: nat)
    requires k >= 1
    ensures d * k >= d
  {
    assert d * (k - 1) >= 0;
  }

  lemma UniqueQuotient(d: nat, q: int, r: int, q': int, r': int)
    requires 0 <= r < d && 0 <= r' < d && d * q + r == d * q' + r'
    ensures q == q'
  {
    if q < q' { AtLeast(d, q' - q); } else if q' < q { AtLeast(d, q - q'); }
  }

  lemma OneBatchLess(n: nat, batch: nat)
    requires batch > 0 && n >= batch
    ensures (n - batch) / batch + 1 == n / batch
  {
    var q, q' := (n - batch) / batch + 1, n / batch;
    var r, r' := (n - batch) % batch, n % batch;
    assert batch * (q - 1) + r == n - batch;
    assert batch * q' + r' == n;
    UniqueQuotient(batch, q, r, q', r');
  }

  lemma NoFullBatch(n: nat, batch: nat)
    requires n < batch
    ensures n / batch == 0
  {
    UniqueQuotient(batch, n / batch, n % batch, 0, n);
  }
}
