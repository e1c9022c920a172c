/**
 What a finished walk leaves owed: the finish writes `done` over whatever was armed meanwhile, so a
 done event owes exactly those a walk could not have fetched.
 */
module LeadOwed {
  import opened Wrappers
  import opened Text
  import opened LeadModel
  import opened LeadGrouping
  import opened LeadWalk
  import opened LeadInvariant
  import opened LeadDrain
  import opened LeadRun
  import opened LeadProtocol
  import opened LeadApart
  import opened LeadFleet
  import L = LeadLease

  lemma FleetStepOf(fleets: seq<Fleet>, steps: seq<Step>, i: nat)
    requires IsFleetRun(fleets, steps) && 0 < i < |fleets|
    ensures |fleets| == |steps| + 1 && CanStep(fleets[i - 1], steps[i - 1])
    ensures fleets[i] == After(fleets[i - 1], steps[i - 1])
  {
    assert fleets[i - 1 + 1] == After(fleets[i - 1], steps[i - 1]);
    hide CanStep, After;
  }

  predicate EndsWalk(m: Step, id: nat) {
    m == Lease(L.Die(id)) || m == Lease(L.Finish(id, true)) || m == Lease(L.Finish(id, false))
  }

  // ── what a walk has in hand ──

  function TodoIds(groups: seq<Group>): (ids: set<Uuid>) {
    if groups == [] then {} else Ids(groups[0].members) + TodoIds(groups[1..])
  }

  /** What of a rule the walker has fetched and not yet junctioned. */
  function InHand(f: Fleet, id: nat, ruleId: Uuid): (ids: set<Uuid>) {
    var pc := At(f.s, id);
    (if id in f.todo && f.todo[id].ruleId == ruleId then TodoIds(f.todo[id].groups) else {})
    + if !pc.Idle? && GroupOf(pc).ruleId == ruleId then Held(pc) else {}
  }

  ghost predicate Accounted(f: Fleet, id: nat, ruleId: Uuid, ids: set<Uuid>) {
    (id in f.todo && f.todo[id].parked) || ids <= JoinedIds(f.s.w.junction, ruleId) + InHand(f, id, ruleId)
  }

  /** Who is inside a commit has a batch; the members it read are junctioned. */
  ghost predicate PcInHand(f: Fleet, id: nat) {
    !At(f.s, id).Idle? ==>
      && id in f.todo
      && (At(f.s, id).MembersRead? ==> Ids(At(f.s, id).known) <= JoinedIds(f.s.w.junction, At(f.s, id).g.ruleId))
  }

  ghost predicate HandInv(f: Fleet) {
    && (forall id :: id in f.q.walkers ==> f.q.walkers[id].eventId in f.q.rows)
    && forall id: nat :: PcInHand(f, id)
  }

  lemma KnownIsJoined(w: World, g: GroupId)
    ensures Ids(GroupMembers(w, g)) <= JoinedIds(w.junction, g.ruleId)
  {
    MembersInFacts(w.registrations, w.junction, g);
    var known := GroupMembers(w, g);
    forall x | x in Ids(known) ensures x in JoinedIds(w.junction, g.ruleId) {
      var r :| r in known && r.id == x;
      assert (g, x) in w.junction;
    }
  }

  /** The junction only grows. */
  lemma JunctionGrows(f: Fleet, m: Step, ruleId: Uuid)
    requires CanStep(f, m)
    ensures JoinedIds(f.s.w.junction, ruleId) <= JoinedIds(After(f, m).s.w.junction, ruleId)
  {
    assert f.s.w.junction <= After(f, m).s.w.junction by {
      hide GroupMembers, Added, Ids, CallFor, JoinedIds, BatchOf, Pairs;
    }
    JoinedIdsMonotone(f.s.w.junction, After(f, m).s.w.junction, ruleId);
    hide After;
  }

  lemma WalkersOnRows(f: Fleet, m: Step)
    requires HandInv(f) && CanStep(f, m)
    ensures forall id :: id in After(f, m).q.walkers ==> After(f, m).q.walkers[id].eventId in After(f, m).q.rows
  {
    hide Next, Enabled, BatchOf, BeginMove, ParkedTodo;
  }

  /** The protocol's move a step makes, if any. */
  function MoveOf(f: Fleet, m: Step): (w: Option<Move>)
    requires CanStep(f, m)
  {
    match m
    case Lease(l) => if l.Die? then Some(Die(l.id)) else None
    case Fetch(_, _, _) => None
    case Begin(id) => Some(BeginMove(f, id))
    case Walk(w) => Some(w)
  }

  lemma PcAfter(f: Fleet, m: Step, id: nat)
    requires CanStep(f, m)
    ensures MoveOf(f, m) == None ==> At(After(f, m).s, id) == At(f.s, id)
    ensures MoveOf(f, m).Some? ==> Enabled(f.s, MoveOf(f, m).value) && After(f, m).s == Next(f.s, MoveOf(f, m).value)
    ensures MoveOf(f, m).Some? && MoverOf(MoveOf(f, m).value) != Some(id) ==> At(After(f, m).s, id) == At(f.s, id)
  {
    hide Next, BatchOf, ParkedTodo;
    if MoveOf(f, m).Some? && MoverOf(MoveOf(f, m).value) != Some(id) { OthersStand(f.s, MoveOf(f, m).value, id); }
  }

  lemma StepKeepsPcInHand(f: Fleet, m: Step, id: nat)
    requires PcInHand(f, id) && CanStep(f, m)
    ensures PcInHand(After(f, m), id)
  {
    PcAfter(f, m, id);
    if !At(f.s, id).Idle? { JunctionGrows(f, m, GroupOf(At(f.s, id)).ruleId); }
    if m.Walk? && m.m.Read? && m.m.id == id { KnownIsJoined(f.s.w, f.s.pcs[id].g); }
    hide GroupMembers, Added, Ids, CallFor, JoinedIds, BatchOf;
  }

  lemma StepKeepsHandInv(f: Fleet, m: Step)
    requires HandInv(f) && CanStep(f, m)
    ensures HandInv(After(f, m))
  {
    WalkersOnRows(f, m);
    hide After, CanStep;
    forall id: nat ensures PcInHand(After(f, m), id) {
      assert PcInHand(f, id);
      StepKeepsPcInHand(f, m, id);
    }
  }

  lemma {:induction false} RunKeepsHandInv(fleets: seq<Fleet>, steps: seq<Step>, i: nat)
    requires IsFleetRun(fleets, steps) && i < |fleets|
    ensures HandInv(fleets[i])
  {
    if i > 0 {
      RunKeepsHandInv(fleets, steps, i - 1);
      FleetStepOf(fleets, steps, i);
      hide IsFleetRun, After, CanStep, HandInv;
      StepKeepsHandInv(fleets[i - 1], steps[i - 1]);
    } else {
      hide CanStep, After;
    }
  }

  // ── nothing fetched is lost ──

  /** A call leaves out only rows read as members already. */
  lemma CallLeavesMembers(members: seq<Registration>, known: seq<Registration>)
    ensures Ids(members) <= Ids(Added(members, Ids(known))) + Ids(known)
  {
    AddedFacts(members, Ids(known));
    hide Added;
  }

  /** One operation moves what is in hand into the junction, or parks the walk. */
  lemma WalkAccounts(f: Fleet, m: Step, ruleId: Uuid, ids: set<Uuid>)
    requires HandInv(f) && CanStep(f, m) && m.Walk? && MoverOf(m.m).Some?
    requires Accounted(f, MoverOf(m.m).value, ruleId, ids)
    ensures Accounted(After(f, m), MoverOf(m.m).value, ruleId, ids)
  {
    var id := MoverOf(m.m).value;
    assert PcInHand(f, id);
    JunctionGrows(f, m, ruleId);
    var pc := f.s.pcs[id];
    if m.m.Call? { CallLeavesMembers(pc.members, pc.known); }
    if m.m.Junction? { PairsTouch(f.s.w, pc.g, Ids(pc.added), GroupId(ruleId, "")); }
    hide HandInv, GroupMembers, Added, Ids, CallFor, JoinedIds, TodoIds, Pairs;
  }

  lemma OthersAccount(f: Fleet, m: Step, id: nat, ruleId: Uuid, ids: set<Uuid>)
    requires CanStep(f, m) && Accounted(f, id, ruleId, ids) && !EndsWalk(m, id)
    requires !(m.Fetch? && m.id == id) && !(m.Begin? && m.id == id) && !(m.Walk? && MoverOf(m.m) == Some(id))
    ensures Accounted(After(f, m), id, ruleId, ids)
  {
    JunctionGrows(f, m, ruleId);
    PcAfter(f, m, id);
    hide Next, Enabled, JoinedIds, TodoIds, BatchOf, BeginMove, Held;
  }

  lemma BeginAccounts(f: Fleet, id: nat, ruleId: Uuid, ids: set<Uuid>)
    requires CanStep(f, Begin(id)) && Accounted(f, id, ruleId, ids)
    ensures Accounted(After(f, Begin(id)), id, ruleId, ids)
  {
    JunctionGrows(f, Begin(id), ruleId);
    hide JoinedIds, Ids;
    assert At(After(f, Begin(id)).s, id).Upserted?;
  }

  lemma FetchAccounts(f: Fleet, m: Step, ruleId: Uuid, ids: set<Uuid>)
    requires CanStep(f, m) && m.Fetch? && Accounted(f, m.id, ruleId, ids)
    ensures Accounted(After(f, m), m.id, ruleId, ids)
  {
    hide JoinedIds, BatchOf, Held;
  }

  lemma StepAccounts(f: Fleet, m: Step, id: nat, ruleId: Uuid, ids: set<Uuid>)
    requires HandInv(f) && CanStep(f, m) && Accounted(f, id, ruleId, ids) && !EndsWalk(m, id)
    ensures Accounted(After(f, m), id, ruleId, ids)
  {
    hide HandInv, CanStep, After, Accounted;
    if m.Fetch? && m.id == id {
      FetchAccounts(f, m, ruleId, ids);
    } else if m.Begin? && m.id == id {
      BeginAccounts(f, id, ruleId, ids);
    } else if m.Walk? && MoverOf(m.m) == Some(id) {
      WalkAccounts(f, m, ruleId, ids);
    } else {
      OthersAccount(f, m, id, ruleId, ids);
    }
  }

  // ── a fetch and its walk ──

  /** No step strictly between ends walker id's walk. */
  ghost predicate SameWalk(steps: seq<Step>, f: nat, n: nat, id: nat)
    requires n <= |steps|
  {
    forall k :: f < k < n ==> !EndsWalk(steps[k], id)
  }

  function FetchedRows(f: Fleet, m: Step): (rows: seq<Registration>)
    requires CanStep(f, m) && m.Fetch?
  {
    Take(Pending(f.s.w, m.rule, f.q.walkers[m.id].eventId), m.limit)
  }

  lemma FetchTakesInHand(f: Fleet, m: Step)
    requires CanStep(f, m) && m.Fetch?
    ensures Accounted(After(f, m), m.id, m.rule.id, Ids(FetchedRows(f, m)))
  {
    var e := f.q.walkers[m.id].eventId;
    var rows := FetchedRows(f, m);
    GroupsHoldAll(e, rows);
    hide JoinedIds, Pending, GroupBy, TodoIds, Ids;
  }

  lemma GroupsHoldAll(e: Uuid, rows: seq<Registration>)
    ensures Ids(rows) <= TodoIds(GroupBy(e, rows))
  {
    var groups := GroupBy(e, rows);
    GroupByPartitions(e, rows);
    hide GroupBy, SlotOf, TodoIds;
    forall x | x in Ids(rows) ensures x in TodoIds(groups) {
      var r :| r in rows && r.id == x;
      var i :| 0 <= i < |groups| && groups[i].slot == SlotOf(e, r);
      GroupByFacts(e, rows, i);
      assert r in groups[i].members;
      InTodo(groups, i, r);
    }
  }

  lemma {:induction false} InTodo(groups: seq<Group>, i: nat, r: Registration)
    requires i < |groups| && r in groups[i].members
    ensures r.id in TodoIds(groups)
  {
    if i > 0 { InTodo(groups[1..], i - 1, r); }
  }

  lemma {:induction false} FetchStaysAccounted(fleets: seq<Fleet>, steps: seq<Step>, f: nat, n: nat)
    requires IsFleetRun(fleets, steps) && f < n < |fleets| && steps[f].Fetch? && SameWalk(steps, f, n, steps[f].id)
    ensures CanStep(fleets[f], steps[f])
    ensures Accounted(fleets[n], steps[f].id, steps[f].rule.id, Ids(FetchedRows(fleets[f], steps[f])))
    ensures steps[f].id in fleets[n].q.walkers
        && fleets[n].q.walkers[steps[f].id].eventId == fleets[f].q.walkers[steps[f].id].eventId
    decreases n
  {
    FleetStepOf(fleets, steps, n);
    FleetStepOf(fleets, steps, f + 1);
    hide IsFleetRun, After, Accounted;
    if n == f + 1 {
      FetchTakesInHand(fleets[f], steps[f]);
      KeepsItsEvent(fleets[f], steps[f], steps[f].id);
    } else {
      FetchStaysAccounted(fleets, steps, f, n - 1);
      RunKeepsHandInv(fleets, steps, n - 1);
      hide HandInv, CanStep;
      StepAccounts(fleets[n - 1], steps[n - 1], steps[f].id, steps[f].rule.id, Ids(FetchedRows(fleets[f], steps[f])));
      KeepsItsEvent(fleets[n - 1], steps[n - 1], steps[f].id);
    }
  }

  lemma KeepsItsEvent(f: Fleet, m: Step, id: nat)
    requires CanStep(f, m) && id in f.q.walkers && !EndsWalk(m, id)
    ensures id in After(f, m).q.walkers && After(f, m).q.walkers[id].eventId == f.q.walkers[id].eventId
  {
    hide Next, Enabled, BatchOf, BeginMove, ParkedTodo;
  }

  /** A WALK THAT COMPLETES HAS JUNCTIONED ALL IT FETCHED, however many others were at work meanwhile. */
  lemma CompletedWalkJoins(fleets: seq<Fleet>, steps: seq<Step>, f: nat, n: nat)
    requires IsFleetRun(fleets, steps) && f < n < |steps| && steps[f].Fetch? && SameWalk(steps, f, n, steps[f].id)
    requires steps[n] == Lease(L.Finish(steps[f].id, true))
    ensures CanStep(fleets[f], steps[f])
    ensures Ids(FetchedRows(fleets[f], steps[f])) <= JoinedIds(fleets[n].s.w.junction, steps[f].rule.id)
  {
    FetchStaysAccounted(fleets, steps, f, n);
    FleetStepOf(fleets, steps, n + 1);
    hide IsFleetRun, After, JoinedIds, FetchedRows, Ids;
  }

  // ── done ──

  /** The step writes `done` on the event's row: false by an arm, or as a finish found. */
  ghost predicate Writes(f: Fleet, m: Step, e: Uuid, done: bool) {
    m.Lease?
    && ((m.l == L.Arm(e) && !done)
        || (m.l.Finish? && m.l.completed == done && m.l.id in f.q.walkers && f.q.walkers[m.l.id].eventId == e))
  }

  ghost predicate Silent(f: Fleet, m: Step, e: Uuid) {
    !Writes(f, m, e, true) && !Writes(f, m, e, false)
  }

  predicate IsDone(f: Fleet, e: Uuid) {
    e in f.q.rows && f.q.rows[e].done
  }

  /** Step n completed a walk of the event, and nothing wrote its `done` since. */
  ghost predicate CompletedLast(fleets: seq<Fleet>, steps: seq<Step>, n: nat, i: nat, e: Uuid)
    requires i < |fleets| && |fleets| == |steps| + 1
  {
    n < i && Writes(fleets[n], steps[n], e, true) && forall k :: n < k < i ==> Silent(fleets[k], steps[k], e)
  }

  lemma WriteDecides(f: Fleet, m: Step, e: Uuid)
    requires HandInv(f) && CanStep(f, m)
    ensures IsDone(After(f, m), e) <==> if Silent(f, m, e) then IsDone(f, e) else Writes(f, m, e, true)
  {
    hide Next, Enabled, BatchOf, BeginMove, ParkedTodo, PcInHand;
  }

  /** DONE IS THE LAST WORD, and an arm's word is lost when a walk under way completes after it. */
  lemma {:induction false} DoneIff(fleets: seq<Fleet>, steps: seq<Step>, i: nat, e: Uuid)
    requires IsFleetRun(fleets, steps) && i < |fleets|
    ensures IsDone(fleets[i], e) <==> exists n: nat :: CompletedLast(fleets, steps, n, i, e)
  {
    if i == 0 {
      hide CanStep, After;
    } else {
      FleetStepOf(fleets, steps, i);
      RunKeepsHandInv(fleets, steps, i - 1);
      DoneIff(fleets, steps, i - 1, e);
      WriteDecides(fleets[i - 1], steps[i - 1], e);
      hide IsFleetRun, CanStep, After, HandInv, IsDone;
      LastWordMoves(fleets, steps, i, i - 1, e);
    }
  }

  lemma LastWordMoves(fleets: seq<Fleet>, steps: seq<Step>, i: nat, j: nat, e: Uuid)
    requires i == j + 1 && j < |steps| && |fleets| == |steps| + 1
    ensures (exists n: nat :: CompletedLast(fleets, steps, n, i, e))
       <==> if Silent(fleets[j], steps[j], e) then (exists n: nat :: CompletedLast(fleets, steps, n, j, e))
            else Writes(fleets[j], steps[j], e, true)
  {
    hide Writes;
    if n: nat :| CompletedLast(fleets, steps, n, i, e) {
      if n < j { assert CompletedLast(fleets, steps, n, j, e); }
    }
    if n: nat :| CompletedLast(fleets, steps, n, j, e) {
      if Silent(fleets[j], steps[j], e) { assert CompletedLast(fleets, steps, n, i, e); }
    }
    if Writes(fleets[j], steps[j], e, true) { assert CompletedLast(fleets, steps, j, i, e); }
  }

  lemma {:induction false} JunctionGrowsThrough(fleets: seq<Fleet>, steps: seq<Step>, n: nat, i: nat, ruleId: Uuid)
    requires IsFleetRun(fleets, steps) && n <= i < |fleets|
    ensures JoinedIds(fleets[n].s.w.junction, ruleId) <= JoinedIds(fleets[i].s.w.junction, ruleId)
    decreases i
  {
    hide IsFleetRun, CanStep, After, JoinedIds;
    if n < i {
      FleetStepOf(fleets, steps, i);
      JunctionGrowsThrough(fleets, steps, n, i - 1, ruleId);
      JunctionGrows(fleets[i - 1], steps[i - 1], ruleId);
    }
  }

  /** Owed by the rule now, though eligible when the fetch was made. */
  ghost predicate OwedSince(before: World, now: World, rule: Rule, e: Uuid, r: Registration) {
    r in Pending(now, rule, e) && exists q :: q in before.registrations && q.id == r.id && InDomain(rule, e, q)
  }

  /** A fetch that took all there was leaves nobody eligible then out, once its walk has completed. */
  lemma NobodyOwedSince(fleets: seq<Fleet>, steps: seq<Step>, f: nat, n: nat, i: nat, r: Registration)
    requires IsFleetRun(fleets, steps) && f < n < i < |fleets| && steps[f].Fetch?
    requires SameWalk(steps, f, n, steps[f].id) && steps[n] == Lease(L.Finish(steps[f].id, true))
    requires CanStep(fleets[f], steps[f])
    requires var e := fleets[f].q.walkers[steps[f].id].eventId;
             |Pending(fleets[f].s.w, steps[f].rule, e)| <= steps[f].limit
    ensures var e := fleets[f].q.walkers[steps[f].id].eventId;
            !OwedSince(fleets[f].s.w, fleets[i].s.w, steps[f].rule, e, r)
  {
    var e := fleets[f].q.walkers[steps[f].id].eventId;
    var before, now, rule := fleets[f].s.w, fleets[i].s.w, steps[f].rule;
    CompletedWalkJoins(fleets, steps, f, n);
    JunctionGrowsThrough(fleets, steps, n, i, rule.id);
    JunctionGrowsThrough(fleets, steps, f, i, rule.id);
    hide IsFleetRun, CanStep, InDomain, JoinedIds, PendingRows;
    PendingRowsFacts(before.registrations, JoinedIds(before.junction, rule.id), rule, e);
    PendingRowsFacts(now.registrations, JoinedIds(now.junction, rule.id), rule, e);
    forall q | q in before.registrations && q.id == r.id && InDomain(rule, e, q)
      ensures r.id in JoinedIds(now.junction, rule.id)
    {
      if q.id !in JoinedIds(before.junction, rule.id) {
        assert q in FetchedRows(fleets[f], steps[f]);
        assert q.id in Ids(FetchedRows(fleets[f], steps[f]));
      }
    }
  }

  /**
   A DONE EVENT OWES ONLY THE LATE. In every run, however many walkers overlap and whatever was armed
   while they walked: when an event is done, some walk of it completed, and a registration a rule still
   owes was not eligible when that walk last fetched for the rule and took all there was. Whoever became
   eligible after that fetch is owed until the next arm, even if an arm announced it.
   */
  lemma DoneOwesOnlyTheLate(fleets: seq<Fleet>, steps: seq<Step>, i: nat, e: Uuid)
    requires IsFleetRun(fleets, steps) && i < |fleets| && IsDone(fleets[i], e)
    ensures exists n: nat ::
              && CompletedLast(fleets, steps, n, i, e) && n < |steps| && steps[n].Lease? && steps[n].l.Finish?
              && forall f: nat, r | TookAll(fleets, steps, f, n, steps[n].l.id, e) ::
                   !OwedSince(fleets[f].s.w, fleets[i].s.w, steps[f].rule, e, r)
  {
    DoneIff(fleets, steps, i, e);
    var n: nat :| CompletedLast(fleets, steps, n, i, e);
    assert n < |steps| && steps[n].Lease? && steps[n].l.Finish?;
    var id := steps[n].l.id;
    forall f: nat, r | TookAll(fleets, steps, f, n, id, e)
      ensures !OwedSince(fleets[f].s.w, fleets[i].s.w, steps[f].rule, e, r)
    {
      FleetStepOf(fleets, steps, f + 1);
      NobodyOwedSince(fleets, steps, f, n, i, r);
    }
    hide IsFleetRun, OwedSince, TookAll;
  }

  /** At step f the walk of the event that ends at step n fetched all that was pending for a rule. */
  ghost predicate TookAll(fleets: seq<Fleet>, steps: seq<Step>, f: nat, n: nat, id: nat, e: Uuid)
    requires n < |steps| && |fleets| == |steps| + 1
  {
    && f < n && steps[f].Fetch? && steps[f].id == id && SameWalk(steps, f, n, id)
    && id in fleets[f].q.walkers && fleets[f].q.walkers[id].eventId == e
    && |Pending(fleets[f].s.w, steps[f].rule, e)| <= steps[f].limit
  }
}
