/**
 What the fetch hands a rule and how a batch is cut into groups, in terms of the columns of a
 registration alone.
 */
module LeadColumns {
  import opened Wrappers
  import opened Text
  import opened Registrations
  import opened LeadModel
  import opened LeadGrouping
  import opened LeadWalk
  import opened LeadInvariant
  import opened LeadDrain
  import P = LeadPass

  // ── who is fetched ──

  /** A row of the table on the event, taking part, that no group of the rule holds. */
  ghost predicate Loose(w: World, rule: Rule, eventId: Uuid, r: Registration) {
    && r in w.registrations && r.eventId == eventId
    && (r.state == Open || r.state == Done) && r.active
    && forall key: string :: (GroupId(rule.id, key), r.id) !in w.junction
  }

  function WithPredicates(rule: Rule, ps: seq<Predicate>): (r: Rule) {
    rule.(predicates := ps)
  }

  lemma PendingMembership(w: World, rule: Rule, eventId: Uuid, r: Registration)
    ensures r in Pending(w, rule, eventId)
       <==> Loose(w, rule, eventId, r) && forall p :: p in rule.predicates ==> Matches(p, r)
  {
    var joined := JoinedIds(w.junction, rule.id);
    PendingRowsFacts(w.registrations, joined, rule, eventId);
    hide PendingRows, Matches;
    assert r.id in joined <==> exists key: string :: (GroupId(rule.id, key), r.id) in w.junction by {
      JoinedSomewhere(w, rule.id, r.id);
    }
    hide JoinedIds;
  }

  lemma JoinedSomewhere(w: World, ruleId: Uuid, x: Uuid)
    ensures x in JoinedIds(w.junction, ruleId) <==> exists key: string :: (GroupId(ruleId, key), x) in w.junction
  {
    if x in JoinedIds(w.junction, ruleId) {
      var p :| p in w.junction && p.0.ruleId == ruleId && p.1 == x;
      assert (GroupId(ruleId, p.0.key), x) in w.junction;
    }
  }

  /** PREDICATES ARE CONJUNCTIVE: a rule fetches whom each half of its predicates alone would fetch. */
  lemma PredicatesConjoin(w: World, rule: Rule, ps: seq<Predicate>, qs: seq<Predicate>, eventId: Uuid, r: Registration)
    ensures r in Pending(w, WithPredicates(rule, ps + qs), eventId)
       <==> r in Pending(w, WithPredicates(rule, ps), eventId) && r in Pending(w, WithPredicates(rule, qs), eventId)
  {
    PendingMembership(w, WithPredicates(rule, ps + qs), eventId, r);
    PendingMembership(w, WithPredicates(rule, ps), eventId, r);
    PendingMembership(w, WithPredicates(rule, qs), eventId, r);
    hide Matches, Pending;
  }

  /** WHOM NO PREDICATE LEAVES OUT. */
  lemma UnfilteredFetch(w: World, rule: Rule, eventId: Uuid, r: Registration)
    ensures r in Pending(w, WithPredicates(rule, []), eventId) <==> Loose(w, rule, eventId, r)
  {
    PendingMembership(w, WithPredicates(rule, []), eventId, r);
    hide Matches, Pending;
  }

  /** Among the row's answers is one of the values, to the question asked. */
  ghost predicate AnsweredWith(p: Predicate, r: Registration) {
    exists q, v :: p.questionId == Some(q) && v in p.valueIds && (q, v) in r.answers
  }

  /** WHOM ONE PREDICATE KEEPS: those whose column answers its axis with one of its values. */
  lemma AxisFetch(w: World, rule: Rule, p: Predicate, eventId: Uuid, r: Registration)
    ensures var fetched := r in Pending(w, WithPredicates(rule, [p]), eventId);
            var loose := Loose(w, rule, eventId, r);
            && (p.axis == "event" ==> (fetched <==> loose && r.eventId in p.valueIds))
            && (p.axis == "event_type" ==>
                  (fetched <==> loose && exists t :: r.eventTypeId == Some(t) && t in p.valueIds))
            && (p.axis == "company" ==> (fetched <==> loose && exists u :: r.orgUnitId == Some(u) && u in p.valueIds))
            && (p.axis == "question_answer" ==> (fetched <==> loose && AnsweredWith(p, r)))
  {
    PendingMembership(w, WithPredicates(rule, [p]), eventId, r);
    var one := WithPredicates(rule, [p]);
    assert (forall x :: x in one.predicates ==> Matches(x, r)) <==> Matches(p, r) by {
      assert one.predicates == [p] && p in [p];
      hide Matches;
    }
    assert Loose(w, one, eventId, r) == Loose(w, rule, eventId, r);
    hide Pending, Loose;
  }

  /** IN ID ORDER, so that a fetch cut short takes the lowest. */
  lemma PendingInOrder(w: World, rule: Rule, eventId: Uuid, limit: nat)
    requires AscendingIds(w.registrations)
    ensures var all := Pending(w, rule, eventId);
            var taken := Take(all, limit);
            && |taken| == (if |all| <= limit then |all| else limit)
            && (forall i, k :: 0 <= i < k < |taken| ==> taken[i].id < taken[k].id)
            && forall r, q :: r in taken && q in all && q !in taken ==> r.id < q.id
  {
    PendingRowsFacts(w.registrations, JoinedIds(w.junction, rule.id), rule, eventId);
    var all := Pending(w, rule, eventId);
    assert AscendingIds(all);
    hide Pending, PendingRows, JoinedIds;
    var taken := Take(all, limit);
    assert forall i :: 0 <= i < |taken| ==> taken[i] == all[i];
    forall r, q | r in taken && q in all && q !in taken ensures r.id < q.id {
      var i :| 0 <= i < |taken| && taken[i] == r;
      var k :| 0 <= k < |all| && all[k] == q;
      InTake(all, limit, k);
    }
  }

  /** THE RULES OF AN EVENT: the active ones whose scope is the event or none, in the table's order. */
  lemma {:induction false} RulesOfEvent(rules: seq<Rule>, eventId: Uuid)
    ensures var mine := ActiveRules(rules, eventId);
            && (forall r :: r in mine <==> r in rules && r.active && (r.scope == None || r.scope == Some(eventId)))
            && (IdOrder(rules) ==> IdOrder(mine))
  {
    if rules != [] {
      var rest := rules[1..];
      RulesOfEvent(rest, eventId);
      assert rules == [rules[0]] + rest;
      if IdOrder(rules) {
        RestInOrder(rules);
        hide IdOrder;
        HeadInOrder(rules[0], ActiveRules(rest, eventId));
      }
    }
  }

  lemma RestInOrder(rules: seq<Rule>)
    requires rules != [] && IdOrder(rules)
    ensures IdOrder(rules[1..]) && forall r :: r in rules[1..] ==> rules[0].id < r.id
  {
    var rest := rules[1..];
    forall i, k | 0 <= i < k < |rest| ensures rest[i].id < rest[k].id {
      assert rest[i] == rules[i + 1] && rest[k] == rules[k + 1];
    }
    forall r | r in rest ensures rules[0].id < r.id {
      var i :| 0 <= i < |rest| && rest[i] == r;
      assert rules[i + 1] == r;
    }
  }

  lemma HeadInOrder(r: Rule, rules: seq<Rule>)
    requires IdOrder(rules)
    ensures (forall q :: q in rules ==> r.id < q.id) ==> IdOrder([r] + rules)
    ensures [] + rules == rules
  {
  }

  ghost predicate IdOrder(rules: seq<Rule>) {
    forall i, k :: 0 <= i < k < |rules| ==> rules[i].id < rules[k].id
  }

  // ── what is claimed ──

  /** Not done, its lease of fifteen minutes run out or never taken, and not among the excluded. */
  predicate Claimable(q: Request, now: int, exclude: seq<Uuid>) {
    && q.done == false && q.eventId !in exclude
    && match q.claimedAt case None => true case Some(t) => now - t > 900
  }

  /** A CLAIM stamps the first claimable row of the queue and changes nothing else. */
  lemma ClaimTakes(w: World, exclude: seq<Uuid>, now: int, o: Replies)
    requires !o(w.clock).Fault?
    ensures var r := P.Claim(w, exclude, now, o).requests;
            if forall q :: q in w.requests ==> !Claimable(q, now, exclude) then r == w.requests
            else
              exists i :: 0 <= i < |w.requests| && Claimable(w.requests[i], now, exclude)
                && (forall k :: 0 <= k < i ==> !Claimable(w.requests[k], now, exclude))
                && r == w.requests[i := w.requests[i].(claimedAt := Some(now))]
  {
    var i := P.FirstDue(w.requests, now, exclude);
    forall q ensures Claimable(q, now, exclude) <==> P.Due(q, now, exclude) {}
    hide Claimable, P.Due;
    if i < |w.requests| { assert w.requests[i] in w.requests; }
  }

  // ── how a batch is cut ──

  /** The text a walk-in's day of creation goes by. */
  function Day(r: Registration): (d: string) {
    match r.createdDay case Some(d) => d case None => "unknown-day"
  }

  ghost predicate Together(groups: seq<Group>, r: Registration, q: Registration) {
    exists i :: 0 <= i < |groups| && r in groups[i].members && q in groups[i].members
  }

  lemma SameSlotIff(eventId: Uuid, r: Registration, q: Registration)
    ensures SlotOf(eventId, r) == SlotOf(eventId, q)
       <==> r.saleOrderId == q.saleOrderId && (r.saleOrderId == None ==> Day(r) == Day(q))
  {
    if SlotOf(eventId, r) == SlotOf(eventId, q) {
      KeyDeterminesSlot(eventId, r, eventId, q);
      if r.saleOrderId == None {
        assert SlotOf(eventId, r).key[37..] == Day(r) && SlotOf(eventId, q).key[37..] == Day(q);
      }
    }
  }

  ghost predicate OfSlot(eventId: Uuid, batch: seq<Registration>, group: Group) {
    forall m :: m in group.members <==> m in batch && SlotOf(eventId, m) == group.slot
  }

  /** TOGETHER IFF ONE ORDER OR ONE DAY. Two rows of a batch share a group if and only if both are on one order, or
      neither is on any and they were created on the same day, unknown counting as a day. */
  lemma TogetherIff(eventId: Uuid, batch: seq<Registration>, r: Registration, q: Registration)
    requires r in batch && q in batch
    ensures Together(GroupBy(eventId, batch), r, q)
       <==> r.saleOrderId == q.saleOrderId && (r.saleOrderId == None ==> Day(r) == Day(q))
  {
    var groups := GroupBy(eventId, batch);
    SameSlotIff(eventId, r, q);
    GroupByPartitions(eventId, batch);
    hide SlotOf, GroupBy, Day;
    forall i | 0 <= i < |groups| ensures OfSlot(eventId, batch, groups[i]) { GroupByFacts(eventId, batch, i); }
    assert SlotOf(eventId, r) in Slots(groups);
  }

  /** WHAT A GROUP IS CALLED: an order's by its id, a day's by the event and the day. */
  lemma GroupNames(eventId: Uuid, batch: seq<Registration>, i: nat, r: Registration)
    requires i < |GroupBy(eventId, batch)| && r in GroupBy(eventId, batch)[i].members
    ensures var slot := GroupBy(eventId, batch)[i].slot;
            match r.saleOrderId
            case Some(order) => slot.grouping == "per_order" && slot.key == UuidText(order)
            case None => slot.grouping == "per_event_day" && slot.key == UuidText(eventId) + ":" + Day(r)
  {
    GroupByFacts(eventId, batch, i);
    hide GroupBy, UuidText;
  }

  /** THE ORDER OF THE GROUPS: orders before days as their names go, and by key within each. */
  lemma GroupOrder(eventId: Uuid, batch: seq<Registration>, i: nat, k: nat)
    requires i < k < |GroupBy(eventId, batch)|
    ensures var a, b := GroupBy(eventId, batch)[i].slot, GroupBy(eventId, batch)[k].slot;
            || (exists n: nat :: DifferAt(a.grouping, b.grouping, n))
            || (a.grouping == b.grouping && exists n: nat :: DifferAt(a.key, b.key, n))
  {
    GroupByPartitions(eventId, batch);
    var a, b := GroupBy(eventId, batch)[i].slot, GroupBy(eventId, batch)[k].slot;
    StrLessIs(a.grouping, b.grouping);
    StrLessIs(a.key, b.key);
    hide StrLess, DifferAt, GroupBy;
  }

  // ── what the sink is shown and what stays written ──

  /** The lead the group had. */
  function LeadOf(w: World, g: GroupId): (lead: Option<Uuid>) {
    if g in w.groups then w.groups[g].lead else None
  }

  /** A member's or a newcomer's own columns. */
  ghost predicate ShowsRow(w: World, g: GroupId, members: seq<Registration>, v: View) {
    exists r: Registration :: (r in members || (r in w.registrations && (g, r.id) in w.junction))
      && v.id == r.id && v.contact == r.contact && v.saleOrderId == r.saleOrderId
  }

  lemma ViewShows(w: World, g: GroupId, members: seq<Registration>, known: seq<Registration>, added: seq<Registration>)
    requires known == GroupMembers(w, g) && added == AddedTo(w, g, members)
    ensures forall v :: v in ViewsOf(known) + ViewsOf(added) ==> ShowsRow(w, g, members, v)
  {
    MembersInFacts(w.registrations, w.junction, g);
    AddedFacts(members, Ids(known));
    assert forall r :: r in known ==> r in w.registrations && (g, r.id) in w.junction;
    assert forall r :: r in added ==> r in members;
    hide GroupMembers, Added;
    forall v | v in ViewsOf(known) + ViewsOf(added) ensures ShowsRow(w, g, members, v) {
      if v in ViewsOf(known) {
        var i :| 0 <= i < |known| && ViewsOf(known)[i] == v;
        assert known[i] in known;
      } else {
        var i :| 0 <= i < |added| && ViewsOf(added)[i] == v;
        assert added[i] in added;
      }
    }
  }

  /** The commit past its two reads. */
  lemma CommitPastReads(w: World, ruleId: Uuid, eventId: Uuid, group: Group, o: Replies) returns (read: World)
    requires !o(w.clock).Fault? && !o(w.clock + 1).Fault?
    ensures var g := GroupId(ruleId, group.slot.key);
            var known, added := GroupMembers(w, g), AddedTo(w, g, group.members);
            var call := CallFor(LeadOf(w, g), g, eventId, group.slot.grouping, known, added);
            && read.log == w.log && read.clock == w.clock + 2 && read.junction == w.junction
            && read.groups == w.groups[g := Stored(w, g, eventId, group.slot.grouping)]
            && CommitGroup(w, ruleId, eventId, group, o)
                == if LeadOf(w, g).Some? then UpdateLeadStep(read, g, call, added, o)
                   else CreateLeadStep(read, g, call, added, o)
  {
    hide GroupMembers, Added, Ids, UpdateLeadStep, CreateLeadStep, CallFor;
    var g := GroupId(ruleId, group.slot.key);
    var up := UpsertProvenance(w, g, eventId, group.slot.grouping, o);
    read := Tick(up, o);
    assert GroupMembers(read, g) == GroupMembers(w, g) by { SameMembers(w, read, g); }
  }

  lemma SameMembers(w: World, w': World, g: GroupId)
    requires w'.registrations == w.registrations && w'.junction == w.junction
    ensures GroupMembers(w', g) == GroupMembers(w, g)
  {
  }

  ghost predicate CallsOnce(w: World, w': World, call: SinkCall, o: Replies) {
    && |w'.log| == |w.log| + 1 && w'.log[..|w.log|] == w.log
    && w'.log[|w.log|] == call.(accepted := o(w.clock).Accept? || o(w.clock) == Fault(true))
  }

  lemma StepsCallOnce(w: World, g: GroupId, call: SinkCall, added: seq<Registration>, o: Replies)
    ensures CallsOnce(w, CreateLeadStep(w, g, call, added, o).0, call, o)
    ensures if added == [] then UpdateLeadStep(w, g, call, added, o).0.log == w.log
            else CallsOnce(w, UpdateLeadStep(w, g, call, added, o).0, call, o)
  {
    hide Ids;
  }

  /**
   WHAT THE SINK IS TOLD. The call a commit makes names the rule's group, the event, the grouping, the lead to
   update if there is one, and shows each registration's own columns; it is made unless the two reads before it
   failed or the group has its lead and gains nobody.
   */
  lemma CommitCallTells(w: World, ruleId: Uuid, eventId: Uuid, group: Group, o: Replies)
    ensures var g := GroupId(ruleId, group.slot.key);
            var log := CommitGroup(w, ruleId, eventId, group, o).0.log;
            var quiet := LeadOf(w, g).Some? && AddedTo(w, g, group.members) == [];
            if o(w.clock).Fault? || o(w.clock + 1).Fault? || quiet then log == w.log
            else
              && |log| == |w.log| + 1 && log[..|w.log|] == w.log
              && var c := log[|w.log|];
                 && c.update == LeadOf(w, g) && c.group == g && c.eventId == eventId
                 && c.grouping == group.slot.grouping
                 && (c.accepted <==> o(w.clock + 2).Accept? || o(w.clock + 2) == Fault(true))
                 && (forall v :: v in c.payload ==> ShowsRow(w, g, group.members, v))
  {
    var g := GroupId(ruleId, group.slot.key);
    var known := GroupMembers(w, g);
    var added := AddedTo(w, g, group.members);
    ViewShows(w, g, group.members, known, added);
    hide GroupMembers, AddedTo, ShowsRow, CreateLeadStep, UpdateLeadStep, CommitGroup, Ids, ViewsOf;
    if o(w.clock).Fault? || o(w.clock + 1).Fault? {
      FaultedReadsTellNothing(w, ruleId, eventId, group, o);
    } else {
      var read := CommitPastReads(w, ruleId, eventId, group, o);
      StepsCallOnce(read, g, CallFor(LeadOf(w, g), g, eventId, group.slot.grouping, known, added), added, o);
    }
  }

  lemma FaultedReadsTellNothing(w: World, ruleId: Uuid, eventId: Uuid, group: Group, o: Replies)
    requires o(w.clock).Fault? || o(w.clock + 1).Fault?
    ensures CommitGroup(w, ruleId, eventId, group, o).0.log == w.log
  {
    hide GroupMembers, Added, CreateLeadStep, UpdateLeadStep;
  }

  /** Members the walk junctions now. */
  function Joining(w: World, g: GroupId, members: seq<Registration>): (pairs: set<(GroupId, Uuid)>) {
    set r | r in members && (g, r.id) !in w.junction :: (g, r.id)
  }

  /** The provenance row of the group, made if missing. */
  function Stored(w: World, g: GroupId, eventId: Uuid, grouping: string): (p: Provenance) {
    if g in w.groups then w.groups[g] else Provenance(eventId, grouping, None)
  }

  /**
   WHAT AN ANSWERED COMMIT LEAVES. With no fault met: a refusal parks with its reason and leaves the group as
   found or made; an accepted create stores the very lead the host returned; an update leaves the lead; and
   what is junctioned is the members not in the group before.
   */
  lemma AnsweredCommit(w: World, ruleId: Uuid, eventId: Uuid, group: Group, o: Replies)
    requires forall t :: w.clock <= t < w.clock + 5 ==> !o(t).Fault?
    requires forall p :: p in w.junction ==> p.1 in Ids(w.registrations)
    ensures var g := GroupId(ruleId, group.slot.key);
            var (w', v) := CommitGroup(w, ruleId, eventId, group, o);
            var row := Stored(w, g, eventId, group.slot.grouping);
            var joining := Joining(w, g, group.members);
            if row.lead.Some? && joining == {} then v == Drained && w'.groups == w.groups && w'.junction == w.junction
            else
              match o(w.clock + 2)
              case Refuse(reason) =>
                v == Parked(reason) && w'.groups == w.groups[g := row] && w'.junction == w.junction
              case Accept(lead) =>
                && v == Drained && w'.junction == w.junction + joining
                && w'.groups == w.groups[g := if row.lead.Some? then row else row.(lead := Some(lead))]
  {
    var g := GroupId(ruleId, group.slot.key);
    var added := AddedTo(w, g, group.members);
    JoiningIsAdded(w, g, group.members);
    var read := CommitPastReads(w, ruleId, eventId, group, o);
    hide CommitGroup, GroupMembers, AddedTo, CallFor, Joining, CreateLeadStep, UpdateLeadStep, Ids;
    var call := CallFor(LeadOf(w, g), g, eventId, group.slot.grouping, GroupMembers(w, g), added);
    var row := Stored(w, g, eventId, group.slot.grouping);
    assert read.groups[g] == row;
    assert row.lead == LeadOf(w, g);
    if row.lead.Some? {
      PutBack(w.groups, g);
      UpdateAnswered(read, g, call, added, o);
    } else {
      if o(w.clock + 2).Accept? { PutTwice(w.groups, g, row, row.(lead := Some(o(w.clock + 2).lead))); }
      CreateAnswered(read, g, call, added, o);
    }
    hide Stored, LeadOf;
  }

  lemma PutBack<K, V>(m: map<K, V>, k: K)
    ensures k in m ==> m[k := m[k]] == m
  {
  }

  lemma PutTwice<K, V>(m: map<K, V>, k: K, a: V, b: V)
    ensures m[k := a][k := b] == m[k := b]
  {
  }

  lemma CreateAnswered(w: World, g: GroupId, call: SinkCall, added: seq<Registration>, o: Replies)
    requires g in w.groups && forall t :: w.clock <= t < w.clock + 3 ==> !o(t).Fault?
    ensures var (w', v) := CreateLeadStep(w, g, call, added, o);
            match o(w.clock)
            case Refuse(reason) => v == Parked(reason) && w'.groups == w.groups && w'.junction == w.junction
            case Accept(lead) =>
              && v == Drained && w'.groups == w.groups[g := w.groups[g].(lead := Some(lead))]
              && w'.junction == w.junction + (set x | x in Ids(added) :: (g, x))
  {
    hide Ids;
  }

  lemma UpdateAnswered(w: World, g: GroupId, call: SinkCall, added: seq<Registration>, o: Replies)
    requires forall t :: w.clock <= t < w.clock + 3 ==> !o(t).Fault?
    ensures var (w', v) := UpdateLeadStep(w, g, call, added, o);
            if added == [] then v == Drained && w' == w
            else
              w'.groups == w.groups
              && match o(w.clock)
                 case Refuse(reason) => v == Parked(reason) && w'.junction == w.junction
                 case Accept(_) => v == Drained && w'.junction == w.junction + (set x | x in Ids(added) :: (g, x))
  {
    hide Ids;
  }

  lemma JoiningIsAdded(w: World, g: GroupId, members: seq<Registration>)
    requires forall p :: p in w.junction ==> p.1 in Ids(w.registrations)
    ensures Joining(w, g, members) == (set x | x in Ids(AddedTo(w, g, members)) :: (g, x))
    ensures Joining(w, g, members) == {} <==> AddedTo(w, g, members) == []
  {
    var added := AddedTo(w, g, members);
    GroupMembersIds(w, g);
    AddedFacts(members, Ids(GroupMembers(w, g)));
    hide GroupMembers, Added;
    forall r | r in added ensures (g, r.id) in Joining(w, g, members) { assert (g, r.id) !in w.junction; }
    forall p | p in Joining(w, g, members) ensures p.0 == g && p.1 in Ids(added) {
      var r :| r in members && (g, r.id) !in w.junction && p == (g, r.id);
      assert r in added;
    }
    if added != [] { assert (g, added[0].id) in Joining(w, g, members); }
  }
}
