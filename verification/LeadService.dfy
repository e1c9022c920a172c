/**
 The service as it runs: rows updated in place, one awaited operation at a time, proved
 equal to the walk functions. One object stands for the service, the rows its repository
 reads and writes, and the host's sink.
 */
module LeadService {
  import opened Wrappers
  import opened Text
  import opened LeadModel
  import opened LeadGrouping
  import opened LeadWalk
  import opened LeadRun
  import opened LeadPass

  class LeadGeneration {
    // rows
    var registrations: seq<Registration>
    var rules: seq<Rule>
    var requests: seq<Request>
    var groups: map<GroupId, Provenance>
    var junction: set<(GroupId, Uuid)>
    // the run
    var summary: Summary
    var clock: nat
    ghost var log: seq<SinkCall>
    ghost var faults: nat
    ghost var refusals: nat
    ghost var fetches: nat
    // the host and the caps
    const replies: Replies
    const at: nat -> int
    const batch: nat
    const cronLimit: nat

    ghost function View(): World
      reads this
    {
      World(registrations, rules, requests, groups, junction, log, clock, faults, refusals, fetches, summary)
    }

    ghost predicate Valid() {
      batch > 0
    }

    /** `with_caps`: a cap below one becomes one. */
    constructor (registrations: seq<Registration>, rules: seq<Rule>, requests: seq<Request>,
                 replies: Replies, at: nat -> int, batch: int, cronLimit: int)
      ensures Valid()
      ensures View() == World(registrations, rules, requests, map[], {}, [], 0, 0, 0, 0, EMPTY_SUMMARY)
      ensures this.batch == (if batch < 1 then 1 else batch)
          && this.cronLimit == (if cronLimit < 1 then 1 else cronLimit)
      ensures this.replies == replies && this.at == at
    {
      this.registrations, this.rules, this.requests := registrations, rules, requests;
      groups, junction, log := map[], {}, [];
      clock, faults, refusals, fetches, summary := 0, 0, 0, 0, EMPTY_SUMMARY;
      this.replies, this.at := replies, at;
      this.batch := if batch < 1 then 1 else batch;
      this.cronLimit := if cronLimit < 1 then 1 else cronLimit;
    }

    /** Take the host's reply to one awaited operation. */
    method Await() returns (reply: Reply)
      modifies this`clock, this`faults
      ensures reply == replies(old(clock))
      ensures View() == Tick(old(View()), replies)
    {
      reply := replies(clock);
      clock := clock + 1;
      if reply.Fault? { faults := faults + 1; }
    }

    // ── the repository's statements ──

    method UpsertProvenance(g: GroupId, eventId: Uuid, grouping: string) returns (ok: bool, lead: Option<Uuid>)
      modifies this
      ensures View() == LeadModel.UpsertProvenance(old(View()), g, eventId, grouping, replies)
      ensures ok == !replies(old(clock)).Fault?
      ensures ok ==> g in groups && lead == groups[g].lead
    {
      var reply := Await();
      if !reply.Fault? || reply.landed {
        if g !in groups { groups := groups[g := Provenance(eventId, grouping, None)]; }
      }
      ok, lead := !reply.Fault?, None;
      if ok { lead := groups[g].lead; }
    }

    method ReadGroupMembers(g: GroupId) returns (ok: bool, members: seq<Registration>)
      modifies this`clock, this`faults
      ensures View() == Tick(old(View()), replies)
      ensures ok == !replies(old(clock)).Fault?
      ensures members == GroupMembers(View(), g)
    {
      var reply := Await();
      ok, members := !reply.Fault?, MembersIn(registrations, junction, g);
    }

    method SetProvenanceLead(g: GroupId, lead: Uuid) returns (ok: bool)
      modifies this
      ensures View() == LeadModel.SetProvenanceLead(old(View()), g, lead, replies)
      ensures ok == !replies(old(clock)).Fault?
    {
      var reply := Await();
      if (!reply.Fault? || reply.landed) && g in groups {
        groups := groups[g := groups[g].(lead := Some(lead))];
      }
      ok := !reply.Fault?;
    }

    method JunctionAdd(g: GroupId, ids: set<Uuid>) returns (ok: bool)
      modifies this
      ensures View() == LeadModel.JunctionAdd(old(View()), g, ids, replies)
      ensures ok == (ids == {} || !replies(old(clock)).Fault?)
    {
      if ids == {} { return true; }
      var reply := Await();
      if !reply.Fault? || reply.landed {
        junction := junction + set x | x in ids :: (g, x);
      }
      ok := !reply.Fault?;
    }

    /** The host port: a create when `call.update` is None, an update otherwise. */
    method Sink(call: SinkCall) returns (reply: Reply)
      modifies this
      ensures reply == replies(old(clock))
      ensures View() == CallSink(old(View()), call, replies)
    {
      reply := Await();
      log := log + [call.(accepted := reply.Accept? || (reply.Fault? && reply.landed))];
      if reply.Refuse? { refusals := refusals + 1; }
    }

    // ── generate_groups ──

    /** A group without a lead: create it, store its id, then junction the members. */
    method CreateArm(g: GroupId, call: SinkCall, added: seq<Registration>) returns (v: Verdict)
      modifies this
      ensures (View(), v) == CreateLeadStep(old(View()), g, call, added, replies)
    {
      hide Ids;
      var reply := Sink(call);
      match reply {
        case Refuse(reason) => return Parked(reason);
        case Fault(_) => return Failed;
        case Accept(id) =>
          var ok := SetProvenanceLead(g, id);
          if !ok { return Failed; }
      }
      var ok := JunctionAdd(g, Ids(added));
      if !ok { return Failed; }
      summary := summary.(groupsCreated := summary.groupsCreated + 1, leadsCreated := summary.leadsCreated + 1);
      v := Drained;
    }

    /** A group with a lead: update it when there are newcomers, then junction them. */
    method UpdateArm(g: GroupId, call: SinkCall, added: seq<Registration>) returns (v: Verdict)
      modifies this
      ensures (View(), v) == UpdateLeadStep(old(View()), g, call, added, replies)
    {
      hide Ids;
      if added == [] { return Drained; }
      var reply := Sink(call);
      match reply {
        case Refuse(reason) => return Parked(reason);
        case Fault(_) => return Failed;
        case Accept(_) =>
      }
      var ok := JunctionAdd(g, Ids(added));
      if !ok { return Failed; }
      summary := summary.(groupsGrown := summary.groupsGrown + 1, leadsUpdated := summary.leadsUpdated + 1);
      v := Drained;
    }

    method CommitOne(ruleId: Uuid, eventId: Uuid, group: Group) returns (v: Verdict)
      requires Valid()
      modifies this
      ensures (View(), v) == CommitGroup(old(View()), ruleId, eventId, group, replies)
    {
      hide CreateLeadStep, UpdateLeadStep, CallFor, Added, Ids;
      var g := GroupId(ruleId, group.slot.key);
      var ok, lead := UpsertProvenance(g, eventId, group.slot.grouping);
      if !ok { return Failed; }
      var known;
      ok, known := ReadGroupMembers(g);
      if !ok { return Failed; }
      var added := Added(group.members, Ids(known));
      var call := CallFor(lead, g, eventId, group.slot.grouping, known, added);
      if lead.Some? {
        v := UpdateArm(g, call, added);
      } else {
        v := CreateArm(g, call, added);
      }
    }

    method GenerateGroups(ruleId: Uuid, eventId: Uuid, eligible: seq<Registration>) returns (v: Verdict)
      requires Valid()
      modifies this
      ensures (View(), v) == CommitGroups(old(View()), ruleId, eventId, GroupBy(eventId, eligible), replies)
    {
      var sorted: seq<Group> := [];
      for i := 0 to |eligible|
        invariant sorted == GroupBy(eventId, eligible[..i])
        invariant View() == old(View())
      {
        assert eligible[..i + 1][..i] == eligible[..i];
        sorted := Push(sorted, SlotOf(eventId, eligible[i]), eligible[i]);
      }
      assert eligible[..|eligible|] == eligible;
      var j := 0;
      while j < |sorted|
        invariant 0 <= j <= |sorted|
        invariant CommitGroups(View(), ruleId, eventId, sorted[j..], replies)
               == CommitGroups(old(View()), ruleId, eventId, sorted, replies)
      {
        assert sorted[j..][1..] == sorted[j + 1..];
        hide CommitGroup;
        v := CommitOne(ruleId, eventId, sorted[j]);
        if v != Drained { return; }
        j := j + 1;
      }
      v := Drained;
    }

    // ── the walk of one event ──

    method EligibleRegistrations(rule: Rule, eventId: Uuid) returns (ok: bool, rows: seq<Registration>)
      requires WellFormed(rule)
      modifies this`clock, this`faults, this`fetches
      ensures View() == Fetched(old(View()), replies)
      ensures ok == !replies(old(clock)).Fault?
      ensures rows == Take(Pending(View(), rule, eventId), batch)
    {
      var reply := Await();
      fetches := fetches + 1;
      ok := !reply.Fault?;
      rows := Take(PendingRows(registrations, JoinedIds(junction, rule.id), rule, eventId), batch);
    }

    method DrainRule(rule: Rule, eventId: Uuid) returns (v: Verdict)
      requires Valid()
      modifies this
      ensures (View(), v) == WalkRule(old(View()), rule, eventId, batch, replies)
    {
      hide CommitGroups, GroupBy, PendingRows;
      if exists p | p in rule.predicates :: !KnownAxis(p.axis) { return Failed; }
      while true
        invariant WalkRule(View(), rule, eventId, batch, replies)
            == WalkRule(old(View()), rule, eventId, batch, replies)
        decreases |Pending(View(), rule, eventId)|
      {
        BatchStepShrinks(View(), rule, eventId, batch, replies);
        var ok, eligible := EligibleRegistrations(rule, eventId);
        if !ok { return Failed; }
        if eligible == [] { return Drained; }
        summary := summary.(registrationsMatched := summary.registrationsMatched + |eligible|);
        v := GenerateGroups(rule.id, eventId, eligible);
        if v != Drained || |eligible| < batch { return; }
      }
    }

    method WalkActiveRules(active: seq<Rule>, eventId: Uuid) returns (v: Verdict)
      requires Valid()
      modifies this
      ensures (View(), v) == WalkRules(old(View()), active, eventId, batch, replies)
    {
      hide WalkRule;
      v := Drained;
      var i := 0;
      while i < |active|
        invariant 0 <= i <= |active|
        invariant v == Drained
        invariant WalkRules(View(), active[i..], eventId, batch, replies)
            == WalkRules(old(View()), active, eventId, batch, replies)
      {
        assert active[i..][1..] == active[i + 1..];
        summary := summary.(rulesEvaluated := summary.rulesEvaluated + 1);
        var reply := Await();
        if reply.Fault? { return Failed; }
        v := DrainRule(active[i], eventId);
        if v != Drained { return; }
        i := i + 1;
      }
    }

    method FinishRequestByEvent(eventId: Uuid, error: Option<string>) returns (ok: bool)
      modifies this
      ensures View() == FinishRequest(old(View()), eventId, error, replies)
      ensures ok == !replies(old(clock)).Fault?
    {
      var reply := Await();
      if !reply.Fault? || reply.landed { requests := Finished(requests, eventId, error); }
      ok := !reply.Fault?;
    }

    /** Returns Drained when the event completed, Parked when a refusal parked it. */
    method RunEvent(eventId: Uuid) returns (v: Verdict)
      requires Valid()
      modifies this
      ensures (View(), v) == RunOne(old(View()), eventId, batch, replies)
    {
      hide WalkRules, FinishRequest, ActiveRules;
      var reply := Await();
      if reply.Fault? { return Failed; }
      var active := ActiveRules(rules, eventId);
      v := WalkActiveRules(active, eventId);
      if v == Failed { return; }
      var ok := FinishRequestByEvent(eventId, if v.Parked? then Some(v.reason) else None);
      if !ok { return Failed; }
      summary := if v.Parked? then summary.(requestsParked := summary.requestsParked + 1)
                 else summary.(requestsCompleted := summary.requestsCompleted + 1);
    }

    // ── the pass ──

    method ClaimNextDueRequest(exclude: seq<Uuid>) returns (ok: bool, claimed: Option<Uuid>)
      modifies this
      ensures var now := at(old(clock));
              var i := FirstDue(old(requests), now, exclude);
              && View() == Claim(old(View()), exclude, now, replies)
              && ok == !replies(old(clock)).Fault?
              && claimed == (if i < |old(requests)| then Some(old(requests)[i].eventId) else None)
    {
      var now := at(clock);
      var i := FirstDue(requests, now, exclude);
      var reply := Await();
      ok, claimed := !reply.Fault?, None;
      if i < |requests| {
        claimed := Some(requests[i].eventId);
        if !reply.Fault? || reply.landed {
          requests := requests[i := requests[i].(claimedAt := Some(now))];
        }
      }
    }

    method RunDueLeadRequests() returns (ok: bool, claims: seq<Uuid>, parked: seq<Uuid>)
      requires Valid()
      modifies this
      ensures PassEnd(View(), ok, claims, parked) == Pass(old(View()), batch, cronLimit, replies, at)
    {
      hide RunOne, Claim, PassLoop, FirstDue, After;
      summary := EMPTY_SUMMARY;
      ghost var whole := PassLoop(View(), [], batch, cronLimit, replies, at);
      claims, parked := [], [];
      NothingBefore(whole);
      while summary.requestsClaimed < cronLimit
        invariant summary.requestsClaimed <= cronLimit
        invariant After(claims, PassLoop(View(), parked, batch, cronLimit - summary.requestsClaimed, replies, at))
            == whole
        decreases cronLimit - summary.requestsClaimed
      {
        PassLoopUnfolds(View(), parked, batch, cronLimit - summary.requestsClaimed, replies, at);
        ClaimKeepsSummary(View(), parked, at(clock), replies);
        var claimed;
        ok, claimed := ClaimNextDueRequest(parked);
        if !ok || claimed == None {
          EndsAfter(claims, [], View(), ok, parked);
          return;
        }
        summary := summary.(requestsClaimed := summary.requestsClaimed + 1);
        RunOneQueue(View(), claimed.value, batch, replies);
        var v := RunEvent(claimed.value);
        EndsAfter(claims, [claimed.value], View(), false, parked);
        ghost var before := claims;
        claims := claims + [claimed.value];
        if v == Failed { return false, claims, parked; }
        if v.Parked? { parked := parked + [claimed.value]; }
        OneAfter(before, claimed.value,
            PassLoop(View(), parked, batch, cronLimit - summary.requestsClaimed, replies, at));
      }
      NoBudgetNoClaims(View(), parked, batch, replies, at);
      EndsAfter(claims, [], View(), true, parked);
      ok := true;
    }

    method TryLeaseRequestOfEvent(eventId: Uuid, now: int) returns (ok: bool, taken: bool)
      modifies this
      ensures View() == TryLease(old(View()), eventId, now, replies)
      ensures ok == !replies(old(clock)).Fault?
      ensures var i := RowOf(old(requests), eventId);
              taken == (i < |old(requests)| && !Leased(old(requests)[i].claimedAt, now))
    {
      var i := RowOf(requests, eventId);
      var reply := Await();
      ok, taken := !reply.Fault?, i < |requests| && !Leased(requests[i].claimedAt, now);
      if taken && (!reply.Fault? || reply.landed) {
        requests := requests[i := requests[i].(claimedAt := Some(now))];
      }
    }

    /** The officer verb: busy under another's fresh lease, not found without a row. */
    method RunRequestOfEvent(eventId: Uuid, now: int) returns (a: OfficerAnswer)
      requires Valid()
      modifies this
      ensures (View(), a) == RunOfEvent(old(View()), eventId, batch, replies, now)
    {
      hide RunOne;
      summary := EMPTY_SUMMARY;
      var i := RowOf(requests, eventId);
      var ok, taken := TryLeaseRequestOfEvent(eventId, now);
      if !ok { return Unavailable; }
      if taken {
        summary := summary.(requestsClaimed := summary.requestsClaimed + 1);
        var v := RunEvent(eventId);
        return Ran(v);
      }
      var reply := Await();
      if reply.Fault? { return Unavailable; }
      a := if i < |requests| then Busy else NotFound;
    }

    /** A pass's end seen from before its first claims. */
    ghost function After(claims: seq<Uuid>, end: PassEnd): PassEnd {
      end.(claims := claims + end.claims)
    }

    lemma NothingBefore(end: PassEnd)
      ensures After([], end) == end
    {
    }

    lemma EndsAfter(claims: seq<Uuid>, last: seq<Uuid>, w: World, ok: bool, parked: seq<Uuid>)
      ensures After(claims, PassEnd(w, ok, last, parked)) == PassEnd(w, ok, claims + last, parked)
      ensures claims + [] == claims
    {
    }

    lemma OneAfter(claims: seq<Uuid>, eventId: Uuid, rest: PassEnd)
      ensures After(claims, rest.(claims := [eventId] + rest.claims)) == After(claims + [eventId], rest)
    {
      assert claims + ([eventId] + rest.claims) == claims + [eventId] + rest.claims;
    }

    lemma ClaimKeepsSummary(w: World, exclude: seq<Uuid>, now: int, o: Replies)
      ensures Claim(w, exclude, now, o).summary == w.summary
    {
    }
  }
}
