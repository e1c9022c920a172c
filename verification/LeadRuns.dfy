/** Whole runs: passes interleaved with the verbs that edit rows between them. */
module LeadRuns {
  import opened Wrappers
  import opened Text
  import opened LeadModel
  import opened LeadGrouping
  import opened LeadWalk
  import opened LeadInvariant
  import opened LeadRun
  import opened LeadPass

  /** A pass, one event walked by hand, any edit of the rows, or a host-side lead merge. */
  datatype Action =
    | RunPass(batch: nat, cronLimit: nat)
    | Walk(eventId: Uuid, batch: nat)
    | Edit(registrations: seq<Registration>, rules: seq<Rule>, requests: seq<Request>)
    | Relink(old': Uuid, new': Uuid)

  /** An edit may change every column but never removes a registration: the junction references it. */
  ghost predicate Legal(w: World, a: Action) {
    match a
    case RunPass(batch, _) => batch > 0
    case Walk(_, batch) => batch > 0
    case Edit(registrations, _, _) => AscendingIds(registrations) && Ids(w.registrations) <= Ids(registrations)
    case Relink(_, _) => true
  }

  /** Every provenance row of the absorbed lead moves to the survivor. */
  function RelinkLead(w: World, absorbed: Uuid, survivor: Uuid): (r: World)
    ensures r.groups.Keys == w.groups.Keys
    ensures forall k :: k in w.groups ==>
              (r.groups[k].lead == if w.groups[k].lead == Some(absorbed) then Some(survivor) else w.groups[k].lead)
  {
    w.(groups := map k | k in w.groups ::
      if w.groups[k].lead == Some(absorbed) then w.groups[k].(lead := Some(survivor)) else w.groups[k])
  }

  ghost function Act(w: World, a: Action, o: Replies, at: nat -> int): World
    requires Legal(w, a)
  {
    match a
    case RunPass(batch, cronLimit) => Pass(w, batch, cronLimit, o, at).world
    case Walk(eventId, batch) => RunOne(w, eventId, batch, o).0
    case Edit(registrations, rules, requests) =>
      w.(registrations := registrations, rules := rules, requests := requests)
    case Relink(absorbed, survivor) => RelinkLead(w, absorbed, survivor)
  }

  /** The worlds a run passes through, from empty tables. */
  ghost predicate IsRun(worlds: seq<World>, actions: seq<Action>, o: Replies, at: nat -> int) {
    && |worlds| == |actions| + 1
    && worlds[0] == World([], [], [], map[], {}, [], 0, 0, 0, 0, EMPTY_SUMMARY)
    && forall i :: 0 <= i < |actions| ==>
        Legal(worlds[i], actions[i]) && worlds[i + 1] == Act(worlds[i], actions[i], o, at)
  }

  lemma ActKeepsInv(w: World, a: Action, o: Replies, at: nat -> int)
    requires Inv(w) && Legal(w, a)
    ensures Inv(Act(w, a, o, at))
  {
    match a
    case RunPass(batch, cronLimit) =>
      InvIgnoresCounters(w, w.(summary := EMPTY_SUMMARY));
      PassLoopKeepsInv(w.(summary := EMPTY_SUMMARY), [], batch, cronLimit, o, at);
      hide PassLoop, Inv;
    case Walk(eventId, batch) =>
      RunOneKeepsInv(w, eventId, batch, o);
      hide RunOne, Inv;
    case Edit(registrations, _, _) =>
      hide LastAccepted, Creates;
      var w' := Act(w, a, o, at);
      assert forall g :: LeadCount(w', g) == LeadCount(w, g);
    case Relink(absorbed, survivor) =>
      hide LastAccepted, Creates, Ids;
      var w' := Act(w, a, o, at);
      assert forall g :: LeadCount(w', g) == LeadCount(w, g);
  }

  lemma {:induction false} RunKeepsInv(worlds: seq<World>, actions: seq<Action>, o: Replies, at: nat -> int, i: nat)
    requires IsRun(worlds, actions, o, at) && i < |worlds|
    ensures Inv(worlds[i])
  {
    if i > 0 {
      RunKeepsInv(worlds, actions, o, at, i - 1);
      ActKeepsInv(worlds[i - 1], actions[i - 1], o, at);
      hide Act, Inv, Legal;
    }
  }

  lemma {:induction false} LastAcceptedIsACall(log: seq<SinkCall>, g: GroupId, x: Uuid)
    requires x in LastAccepted(log, g)
    ensures exists i :: 0 <= i < |log| && log[i].accepted && log[i].group == g && x in PayloadIds(log[i])
  {
    hide PayloadIds;
    var last := |log| - 1;
    if log[last].group == g && log[last].accepted {
      assert x in PayloadIds(log[last]);
    } else {
      LastAcceptedIsACall(log[..last], g, x);
      var i :| 0 <= i < last && log[..last][i].accepted && log[..last][i].group == g && x in PayloadIds(log[..last][i]);
      assert log[i] == log[..last][i];
    }
  }

  /**
   THE SINK BEFORE THE JUNCTION, over every run: however walks are refused, cut short or
   retried between edits and merges, a junctioned registration was in a call the sink
   accepted for that group, sits in the last payload accepted for it, belongs to one group
   per rule, and its group has a lead; no payload names anyone twice; and a group is
   created once, plus at most once for each fault met.
   */
  lemma SinkBeforeJunction(worlds: seq<World>, actions: seq<Action>, o: Replies, at: nat -> int, i: nat)
    requires IsRun(worlds, actions, o, at) && i < |worlds|
    ensures var w := worlds[i];
            && (forall p :: p in w.junction ==>
                  && (exists c ::
                        0 <= c < |w.log| && w.log[c].accepted && w.log[c].group == p.0 && p.1 in PayloadIds(w.log[c]))
                  && p.1 in LastAccepted(w.log, p.0)
                  && p.0 in w.groups && w.groups[p.0].lead.Some?)
            && (forall p, q :: p in w.junction && q in w.junction && p.0.ruleId == q.0.ruleId && p.1 == q.1 ==> p == q)
            && (forall c :: 0 <= c < |w.log| ==> NoRepeats(w.log[c].payload))
            && (forall g :: Creates(w.log, g) <= 1 + w.faults)
  {
    RunKeepsInv(worlds, actions, o, at, i);
    var w := worlds[i];
    hide IsRun, LastAccepted, Creates, PayloadIds;
    forall p | p in w.junction
      ensures exists c :: 0 <= c < |w.log| && w.log[c].accepted && w.log[c].group == p.0 && p.1 in PayloadIds(w.log[c])
    {
      LastAcceptedIsACall(w.log, p.0, p.1);
    }
  }

  // ── when a lead is created twice ──

  lemma CreateStepLosesExactly(w: World, g: GroupId, call: SinkCall, added: seq<Registration>, o: Replies)
    requires g in w.groups && call.group == g && call.update == None && w.groups[g].lead == None
    ensures var w' := CreateLeadStep(w, g, call, added, o).0;
            Unlinked(w', g) == Unlinked(w, g) + 1 <==>
              o(w.clock) == Fault(true) || (o(w.clock).Accept? && o(w.clock + 1) == Fault(false))
  {
    hide Ids, Creates;
    CreatesOfAppend(w.log, CallSink(w, call, o).log[|w.log|], g);
  }

  /** The exact circumstance: the host took the create, and the walk was cut off before the
      lead id was stored. The next walk finds no lead and creates again. */
  lemma CreateIsLostExactly(w: World, ruleId: Uuid, eventId: Uuid, group: Group, o: Replies)
    ensures var g := GroupId(ruleId, group.slot.key);
            var w' := CommitGroup(w, ruleId, eventId, group, o).0;
            Unlinked(w', g) == Unlinked(w, g) + 1 <==>
              && !(g in w.groups && w.groups[g].lead.Some?)
              && !o(w.clock).Fault? && !o(w.clock + 1).Fault?
              && (o(w.clock + 2) == Fault(true) || (o(w.clock + 2).Accept? && o(w.clock + 3) == Fault(false)))
  {
    hide GroupMembers, Added, Ids, CreateLeadStep, UpdateLeadStep, Creates;
    var g := GroupId(ruleId, group.slot.key);
    var up := UpsertProvenance(w, g, eventId, group.slot.grouping, o);
    if !o(w.clock).Fault? && !o(up.clock).Fault? {
      var read := Tick(up, o);
      var known := GroupMembers(read, g);
      var added := Added(group.members, Ids(known));
      var call := CallFor(up.groups[g].lead, g, eventId, group.slot.grouping, known, added);
      if up.groups[g].lead.Some? { UpdateStepCreates(read, g, call, added, o, g); }
      else { CreateStepLosesExactly(read, g, call, added, o); }
    }
  }
}
