/**
 The lease and the walks together: hosts claim events off one queue and walk what they claimed, one
 awaited operation at a time, all interleaved. With walks no longer than the lease and no order across
 events, no two walkers meet, so every walk may count on what a single one may.
 */
module LeadFleet {
  import opened Wrappers
  import opened Text
  import opened LeadModel
  import opened LeadGrouping
  import opened LeadWalk
  import opened LeadInvariant
  import opened LeadDrain
  import opened LeadProtocol
  import opened LeadApart
  import L = LeadLease

  /** A fetched batch, grouped, of which these groups are still to be committed; `parked` once the sink has
      refused one. */
  datatype Todo = Todo(ruleId: Uuid, groups: seq<Group>, parked: bool)

  datatype Fleet = Fleet(q: L.Queue, s: System, todo: map<nat, Todo>)

  /** A move of the queue; a walker fetching a rule's next batch, or beginning its next group; any
      further operation of a walk; or an edit of the rows. */
  datatype Step =
    | Lease(l: L.Move)
    | Fetch(id: nat, rule: Rule, limit: nat)
    | Begin(id: nat)
    | Walk(m: Move)

  /** Nothing fetched is still to be committed, and nothing was refused. */
  predicate Cleared(f: Fleet, id: nat) {
    At(f.s, id).Idle? && (id in f.todo ==> f.todo[id].groups == [] && !f.todo[id].parked)
  }

  /** A walk fetches again and completes only when cleared; after a refusal it can only give up. */
  predicate CanStep(f: Fleet, m: Step) {
    match m
    case Lease(l) =>
      L.Enabled(f.q, l) && (l.Finish? ==> At(f.s, l.id).Idle? && (l.completed ==> Cleared(f, l.id)))
    case Fetch(id, _, _) => id in f.q.walkers && Cleared(f, id)
    case Begin(id) =>
      id in f.q.walkers && At(f.s, id).Idle? && id in f.todo && f.todo[id].groups != [] && !f.todo[id].parked
    case Walk(w) => !w.Upsert? && !w.Die? && Enabled(f.s, w)
  }

  function BeginMove(f: Fleet, id: nat): (m: Move)
    requires CanStep(f, Begin(id))
  {
    var t := f.todo[id];
    var e := f.q.walkers[id].eventId;
    Upsert(id, GroupId(t.ruleId, t.groups[0].slot.key), e, t.groups[0].slot.grouping, t.groups[0].members)
  }

  function BatchOf(w: World, rule: Rule, eventId: Uuid, limit: nat): (t: Todo) {
    Todo(rule.id, GroupBy(eventId, Take(Pending(w, rule, eventId), limit)), false)
  }

  function ParkedTodo(f: Fleet, id: nat): (todo: map<nat, Todo>) {
    if id in f.todo then f.todo[id := f.todo[id].(parked := true)] else f.todo
  }

  /** A walk that ends or is cut off takes its batch with it. */
  function After(f: Fleet, m: Step): (r: Fleet)
    requires CanStep(f, m)
  {
    match m
    case Lease(l) =>
      Fleet(L.Next(f.q, l), if l.Die? then Next(f.s, Die(l.id)) else f.s,
            if l.Die? || l.Finish? then f.todo - {l.id} else f.todo)
    case Fetch(id, rule, limit) =>
      f.(todo := f.todo[id := BatchOf(f.s.w, rule, f.q.walkers[id].eventId, limit)])
    case Begin(id) =>
      f.(s := Next(f.s, BeginMove(f, id)), todo := f.todo[id := f.todo[id].(groups := f.todo[id].groups[1..])])
    case Walk(w) => f.(s := Next(f.s, w), todo := if w.Call? && !w.accepted then ParkedTodo(f, w.id) else f.todo)
  }

  ghost predicate IsFleetRun(fleets: seq<Fleet>, steps: seq<Step>) {
    && |fleets| == |steps| + 1
    && fleets[0].q.rows == map[] && fleets[0].q.walkers == map[] && fleets[0].todo == map[]
    && fleets[0].s == System(World([], [], [], map[], {}, [], 0, 0, 0, 0, EMPTY_SUMMARY), map[])
    && forall i :: 0 <= i < |steps| ==> CanStep(fleets[i], steps[i]) && fleets[i + 1] == After(fleets[i], steps[i])
  }

  /** The event each registration belongs to, and the one event of each order's registrations. */
  datatype Home = Home(row: Uuid -> Uuid, order: Uuid -> Uuid)

  ghost predicate Belongs(home: Home, eventId: Uuid, r: Registration) {
    home.row(r.id) == eventId && (r.saleOrderId.Some? ==> home.order(r.saleOrderId.value) == eventId)
  }

  /** Every row of the table is on its one event, and so is its order. */
  ghost predicate NoOrderAcrossEvents(home: Home, rows: seq<Registration>) {
    forall r :: r in rows ==> Belongs(home, r.eventId, r)
  }

  /** The table is in id order and no row is deleted. */
  ghost predicate TableKept(f: Fleet, m: Step) {
    m.Walk? ==> Grounded(f.s.w, m.m)
  }

  // ── what every walker has to itself ──

  ghost predicate GroupOfEvent(home: Home, e: Uuid, key: string) {
    exists r :: Belongs(home, e, r) && SlotOf(e, r).key == key
  }

  ghost predicate AllOf(home: Home, e: Uuid, ids: set<Uuid>) {
    forall x :: x in ids ==> home.row(x) == e
  }

  ghost predicate PcOfEvent(home: Home, e: Uuid, pc: Pc) {
    !pc.Idle? ==> GroupOfEvent(home, e, GroupOf(pc).key) && AllOf(home, e, Held(pc))
  }

  ghost predicate GroupReady(home: Home, w: World, ruleId: Uuid, e: Uuid, group: Group) {
    && GroupOfEvent(home, e, group.slot.key) && AllOf(home, e, Ids(group.members)) && Distinct(group.members)
    && Ids(group.members) <= Ids(w.registrations) && Ids(group.members) !! JoinedIds(w.junction, ruleId)
  }

  ghost predicate TodoReady(home: Home, w: World, e: Uuid, t: Todo, pc: Pc) {
    && (forall i :: 0 <= i < |t.groups| ==> GroupReady(home, w, t.ruleId, e, t.groups[i]))
    && Separate(t.groups)
    && (!pc.Idle? && GroupOf(pc).ruleId == t.ruleId ==>
          forall i :: 0 <= i < |t.groups| ==> Ids(t.groups[i].members) !! Held(pc))
  }

  ghost predicate WalkerOwn(home: Home, f: Fleet, id: nat) {
    if id in f.q.walkers then
      && PcOfEvent(home, f.q.walkers[id].eventId, At(f.s, id))
      && (id in f.todo ==> TodoReady(home, f.s.w, f.q.walkers[id].eventId, f.todo[id], At(f.s, id)))
    else At(f.s, id).Idle? && id !in f.todo
  }

  ghost predicate FleetInv(home: Home, f: Fleet) {
    && L.Exclusive(f.q) && L.Stamped(f.q) && ApartInv(f.s)
    && forall id: nat :: WalkerOwn(home, f, id)
  }

  /** Two events' walkers share neither a group nor a registration. */
  lemma EventsKeepClear(home: Home, e: Uuid, a: Pc, f: Uuid, b: Pc)
    requires e != f && PcOfEvent(home, e, a) && PcOfEvent(home, f, b)
    ensures Clear(a, b)
  {
    if !a.Idle? && !b.Idle? {
      hide Held, SlotOf;
      if GroupOf(a).key == GroupOf(b).key {
        var r :| Belongs(home, e, r) && SlotOf(e, r).key == GroupOf(a).key;
        var p :| Belongs(home, f, p) && SlotOf(f, p).key == GroupOf(b).key;
        EventsMeetInAnOrder(e, r, f, p);
      }
    }
  }

  lemma OwnIsApart(home: Home, f: Fleet)
    requires FleetInv(home, f)
    ensures Apart(f.s)
  {
    hide ApartInv, Clear, PcOfEvent, TodoReady;
    forall a, b | a in f.s.pcs && b in f.s.pcs && a != b ensures Clear(f.s.pcs[a], f.s.pcs[b]) {
      assert WalkerOwn(home, f, a) && WalkerOwn(home, f, b);
      if a in f.q.walkers && b in f.q.walkers {
        EventsKeepClear(home, f.q.walkers[a].eventId, f.s.pcs[a], f.q.walkers[b].eventId, f.s.pcs[b]);
      } else {
        IdleIsClear(f.s.pcs[a], f.s.pcs[b]);
      }
    }
  }

  lemma IdleIsClear(a: Pc, b: Pc)
    requires a.Idle? || b.Idle?
    ensures Clear(a, b)
  {
  }

  // ── the fetch ──

  lemma TakenFacts(w: World, rule: Rule, e: Uuid, limit: nat)
    requires AscendingIds(w.registrations)
    ensures var rows := Take(Pending(w, rule, e), limit);
            && Distinct(rows)
            && forall r :: r in rows ==> r in w.registrations && PendingRow(JoinedIds(w.junction, rule.id), rule, e, r)
  {
    PendingRowsFacts(w.registrations, JoinedIds(w.junction, rule.id), rule, e);
  }

  lemma FetchedIsReady(home: Home, w: World, rule: Rule, e: Uuid, limit: nat)
    requires AscendingIds(w.registrations) && NoOrderAcrossEvents(home, w.registrations)
    ensures TodoReady(home, w, e, BatchOf(w, rule, e, limit), Idle)
  {
    TakenFacts(w, rule, e, limit);
    var rows := Take(Pending(w, rule, e), limit);
    var groups := GroupBy(e, rows);
    GroupBySeparates(e, rows);
    hide PendingRows, AscendingIds, GroupBy, Separate, GroupReady, NoOrderAcrossEvents, JoinedIds;
    forall i | 0 <= i < |groups| ensures GroupReady(home, w, rule.id, e, groups[i]) {
      GroupByFacts(e, rows, i);
      SomeMember(e, rows, i);
      FetchedGroupReady(home, w, rule, e, rows, groups[i]);
    }
  }

  lemma SomeMember(e: Uuid, rows: seq<Registration>, i: nat)
    requires i < |GroupBy(e, rows)|
    ensures exists r :: r in rows && SlotOf(e, r) == GroupBy(e, rows)[i].slot
  {
    GroupByPartitions(e, rows);
    hide GroupBy, SlotOf;
    assert GroupBy(e, rows)[i].slot in SlotsOf(e, rows);
  }

  lemma FetchedGroupReady(home: Home, w: World, rule: Rule, e: Uuid, rows: seq<Registration>, group: Group)
    requires NoOrderAcrossEvents(home, w.registrations) && Distinct(group.members)
    requires forall r :: r in rows ==> r in w.registrations && PendingRow(JoinedIds(w.junction, rule.id), rule, e, r)
    requires forall m :: m in group.members <==> m in rows && SlotOf(e, m) == group.slot
    requires exists r :: r in rows && SlotOf(e, r) == group.slot
    ensures GroupReady(home, w, rule.id, e, group)
  {
    hide SlotOf, JoinedIds, Distinct;
    var r :| r in rows && SlotOf(e, r) == group.slot;
    assert r.eventId == e && Belongs(home, e, r);
    forall x | x in Ids(group.members)
      ensures home.row(x) == e && x in Ids(w.registrations) && x !in JoinedIds(w.junction, rule.id)
    {
      var m :| m in group.members && m.id == x;
      assert m.eventId == e && Belongs(home, m.eventId, m);
    }
  }

  // ── one operation of a walk ──

  /** A place left for the next keeps its group and gains nobody. */
  ghost predicate Narrows(pc: Pc, pc': Pc) {
    pc'.Idle? || (!pc.Idle? && GroupOf(pc') == GroupOf(pc) && Held(pc') <= Held(pc))
  }

  lemma WalkNarrows(s: System, m: Move, id: nat)
    requires Enabled(s, m) && !m.Upsert?
    ensures Narrows(At(s, id), At(Next(s, m), id))
  {
    if MoverOf(m) != Some(id) {
      OthersStand(s, m, id);
    } else {
      if m.Call? {
        var pc := s.pcs[id];
        AddedFacts(pc.members, Ids(pc.known));
        AddedAreMembers(pc.members, Ids(pc.known));
      }
      hide GroupMembers, Added, Ids, CallFor;
    }
  }

  lemma AddedAreMembers(members: seq<Registration>, known: set<Uuid>)
    ensures Ids(Added(members, known)) <= Ids(members)
  {
    AddedFacts(members, known);
    hide Added;
  }

  /** What the walk's operation junctions for a rule. */
  function Joins(s: System, m: Move, ruleId: Uuid): (ids: set<Uuid>) {
    if m.Junction? && At(s, m.id).Linked? && At(s, m.id).g.ruleId == ruleId then Held(At(s, m.id)) else {}
  }

  ghost predicate TablesGrow(w: World, w': World, ruleId: Uuid, more: set<Uuid>) {
    Ids(w.registrations) <= Ids(w'.registrations)
    && JoinedIds(w'.junction, ruleId) <= JoinedIds(w.junction, ruleId) + more
  }

  lemma WalkGrowsTables(s: System, m: Move, ruleId: Uuid)
    requires Enabled(s, m) && Grounded(s.w, m)
    ensures TablesGrow(s.w, Next(s, m).w, ruleId, Joins(s, m, ruleId))
  {
    if m.Junction? {
      var pc := s.pcs[m.id];
      PairsTouch(s.w, pc.g, Ids(pc.added), GroupId(ruleId, ""));
    }
    hide GroupMembers, Added, Ids, CallFor, JoinedIds, Pairs, Loose, Distinct, AscendingIds;
  }

  lemma GroupStaysReady(home: Home, w: World, w': World, ruleId: Uuid, e: Uuid, group: Group, more: set<Uuid>)
    requires GroupReady(home, w, ruleId, e, group) && TablesGrow(w, w', ruleId, more)
    requires Ids(group.members) !! more
    ensures GroupReady(home, w', ruleId, e, group)
  {
    hide Ids, JoinedIds, GroupOfEvent, AllOf, Distinct;
  }

  lemma TodoStays(home: Home, w: World, w': World, e: Uuid, t: Todo, pc: Pc, pc': Pc, more: set<Uuid>)
    requires TodoReady(home, w, e, t, pc) && TablesGrow(w, w', t.ruleId, more) && Narrows(pc, pc')
    requires forall i :: 0 <= i < |t.groups| ==> Ids(t.groups[i].members) !! more
    ensures TodoReady(home, w', e, t, pc')
  {
    hide Ids, GroupReady, Separate, TablesGrow, Held;
    forall i | 0 <= i < |t.groups| ensures GroupReady(home, w', t.ruleId, e, t.groups[i]) {
      GroupStaysReady(home, w, w', t.ruleId, e, t.groups[i], more);
    }
  }

  lemma PcStaysOfEvent(home: Home, e: Uuid, pc: Pc, pc': Pc)
    requires PcOfEvent(home, e, pc) && Narrows(pc, pc')
    ensures PcOfEvent(home, e, pc')
  {
    hide Held, GroupOfEvent;
  }

  /** What another walker junctions is of another event; what it junctions itself it no longer has to do. */
  lemma JoinsMissTodo(home: Home, f: Fleet, m: Move, id: nat, i: nat)
    requires FleetInv(home, f) && Enabled(f.s, m) && id in f.q.walkers && id in f.todo && i < |f.todo[id].groups|
    ensures Ids(f.todo[id].groups[i].members) !! Joins(f.s, m, f.todo[id].ruleId)
  {
    var t := f.todo[id];
    assert WalkerOwn(home, f, id);
    hide Ids, ApartInv, Held, JoinedIds;
    if m.Junction? {
      assert WalkerOwn(home, f, m.id);
      assert GroupReady(home, f.s.w, t.ruleId, f.q.walkers[id].eventId, t.groups[i]);
    }
    hide WalkerOwn, GroupReady;
  }

  lemma WalkKeepsOwn(home: Home, f: Fleet, m: Step, id: nat)
    requires FleetInv(home, f) && CanStep(f, m) && m.Walk? && TableKept(f, m)
    ensures WalkerOwn(home, After(f, m), id)
  {
    assert WalkerOwn(home, f, id);
    WalkNarrows(f.s, m.m, id);
    var f' := After(f, m);
    if id in f.q.walkers {
      var e := f.q.walkers[id].eventId;
      PcStaysOfEvent(home, e, At(f.s, id), At(f'.s, id));
      if id in f.todo {
        var t := f.todo[id];
        forall i | 0 <= i < |t.groups| ensures Ids(t.groups[i].members) !! Joins(f.s, m.m, t.ruleId) {
          JoinsMissTodo(home, f, m.m, id, i);
        }
        WalkGrowsTables(f.s, m.m, t.ruleId);
        TodoStays(home, f.s.w, f'.s.w, e, t, At(f.s, id), At(f'.s, id), Joins(f.s, m.m, t.ruleId));
      }
    }
    hide Next, FleetInv, TodoReady, PcOfEvent, Ids, Joins;
  }

  // ── the other steps ──

  lemma BeginIsGrounded(home: Home, f: Fleet, id: nat)
    requires FleetInv(home, f) && CanStep(f, Begin(id))
    ensures Enabled(f.s, BeginMove(f, id)) && Grounded(f.s.w, BeginMove(f, id))
  {
    assert WalkerOwn(home, f, id);
    assert GroupReady(home, f.s.w, f.todo[id].ruleId, f.q.walkers[id].eventId, f.todo[id].groups[0]);
    hide ApartInv, Ids, JoinedIds, Distinct, GroupOfEvent;
  }

  lemma BegunIsReady(home: Home, w: World, e: Uuid, t: Todo, pc: Pc)
    requires TodoReady(home, w, e, t, Idle) && t.groups != [] && !pc.Idle?
    requires GroupOf(pc) == GroupId(t.ruleId, t.groups[0].slot.key) && Held(pc) == Ids(t.groups[0].members)
    ensures PcOfEvent(home, e, pc) && TodoReady(home, w, e, t.(groups := t.groups[1..]), pc)
  {
    hide Ids, Held, GroupOfEvent, AllOf, Distinct, JoinedIds;
    var rest := t.groups[1..];
    assert GroupReady(home, w, t.ruleId, e, t.groups[0]);
    forall i | 0 <= i < |rest|
      ensures GroupReady(home, w, t.ruleId, e, rest[i]) && Ids(rest[i].members) !! Held(pc)
    {
      assert rest[i] == t.groups[i + 1];
    }
    hide GroupReady;
    forall i, j | 0 <= i < j < |rest| ensures Ids(rest[i].members) !! Ids(rest[j].members) {
      assert rest[i] == t.groups[i + 1] && rest[j] == t.groups[j + 1];
    }
  }

  lemma BeginKeepsOwn(home: Home, f: Fleet, begun: nat, id: nat)
    requires FleetInv(home, f) && CanStep(f, Begin(begun))
    ensures WalkerOwn(home, After(f, Begin(begun)), id)
  {
    assert WalkerOwn(home, f, id);
    var m := BeginMove(f, begun);
    var w' := Next(f.s, m).w;
    hide FleetInv, Ids;
    if id == begun {
      var e := f.q.walkers[id].eventId;
      BegunIsReady(home, f.s.w, e, f.todo[id], At(Next(f.s, m), id));
      var t := After(f, Begin(begun)).todo[id];
      hide Held, TodoReady, PcOfEvent;
      SameTables(home, f.s.w, w', e, t, At(Next(f.s, m), id));
    } else {
      OthersStand(f.s, m, id);
      hide TodoReady, PcOfEvent;
      if id in f.q.walkers && id in f.todo {
        SameTables(home, f.s.w, w', f.q.walkers[id].eventId, f.todo[id], At(f.s, id));
      }
    }
  }

  lemma SameTables(home: Home, w: World, w': World, e: Uuid, t: Todo, pc: Pc)
    requires TodoReady(home, w, e, t, pc) && w'.registrations == w.registrations && w'.junction == w.junction
    ensures TodoReady(home, w', e, t, pc)
  {
    hide Ids, JoinedIds, Held;
    TodoStays(home, w, w', e, t, pc, pc, {});
    hide TodoReady;
  }

  lemma LeaseKeepsOwn(home: Home, f: Fleet, l: L.Move, id: nat)
    requires FleetInv(home, f) && CanStep(f, Lease(l))
    ensures WalkerOwn(home, After(f, Lease(l)), id)
  {
    assert WalkerOwn(home, f, id);
    hide FleetInv, TodoReady, PcOfEvent;
    if l.Die? {
      if id != l.id { OthersStand(f.s, Die(l.id), id); }
      if id != l.id && id in f.q.walkers && id in f.todo {
        SameTables(home, f.s.w, Next(f.s, Die(l.id)).w, f.q.walkers[id].eventId, f.todo[id], At(f.s, id));
      }
    }
    if (l.CronClaim? || l.OfficerClaim?) && id == l.id { IdleOfEvent(home, l.eventId); }
  }

  lemma IdleOfEvent(home: Home, e: Uuid)
    ensures PcOfEvent(home, e, Idle)
  {
  }

  lemma FetchKeepsOwn(home: Home, f: Fleet, m: Step, id: nat)
    requires FleetInv(home, f) && CanStep(f, m) && m.Fetch? && NoOrderAcrossEvents(home, f.s.w.registrations)
    ensures WalkerOwn(home, After(f, m), id)
  {
    assert WalkerOwn(home, f, id);
    if id == m.id {
      assert AscendingIds(f.s.w.registrations);
      hide FleetInv;
      FetchedIsReady(home, f.s.w, m.rule, f.q.walkers[id].eventId, m.limit);
    }
    hide FleetInv, TodoReady, PcOfEvent, NoOrderAcrossEvents, BatchOf;
  }

  lemma StepKeepsOwn(home: Home, f: Fleet, m: Step)
    requires FleetInv(home, f) && CanStep(f, m) && TableKept(f, m) && NoOrderAcrossEvents(home, f.s.w.registrations)
    ensures forall id: nat :: WalkerOwn(home, After(f, m), id)
  {
    hide FleetInv, CanStep, After, TableKept, WalkerOwn, NoOrderAcrossEvents;
    forall id: nat ensures WalkerOwn(home, After(f, m), id) {
      match m
      case Lease(l) => LeaseKeepsOwn(home, f, l, id);
      case Fetch(_, _, _) => FetchKeepsOwn(home, f, m, id);
      case Begin(begun) => BeginKeepsOwn(home, f, begun, id);
      case Walk(_) => WalkKeepsOwn(home, f, m, id);
    }
  }

  lemma StepKeepsApartInv(home: Home, f: Fleet, m: Step)
    requires FleetInv(home, f) && CanStep(f, m) && TableKept(f, m)
    ensures ApartInv(After(f, m).s)
  {
    OwnIsApart(home, f);
    assert ApartInv(f.s);
    match m
    case Lease(l) =>
      hide FleetInv, ApartInv, Apart;
      if l.Die? { MoveKeepsApartInv(f.s, Die(l.id)); }
      hide Next;
    case Fetch(_, _, _) => hide FleetInv, ApartInv;
    case Begin(id) =>
      BeginIsGrounded(home, f, id);
      hide FleetInv, ApartInv, Apart, Grounded;
      MoveKeepsApartInv(f.s, BeginMove(f, id));
      hide Next, BeginMove;
    case Walk(w) =>
      hide FleetInv, ApartInv, Apart, Grounded;
      MoveKeepsApartInv(f.s, w);
      hide Next;
  }

  lemma StepKeepsExclusive(f: Fleet, m: Step)
    requires CanStep(f, m) && L.Prompt(f.q) && L.Exclusive(f.q) && L.Stamped(f.q)
    ensures L.Exclusive(After(f, m).q) && L.Stamped(After(f, m).q)
  {
    hide Next, Enabled, BatchOf, BeginMove, L.Next, L.Enabled;
    match m
    case Lease(l) => L.MoveKeepsExclusive(f.q, l);
    case _ =>
      assert After(f, m).q == f.q;
  }

  lemma StartsWithInv(home: Home, fleets: seq<Fleet>, steps: seq<Step>)
    requires IsFleetRun(fleets, steps)
    ensures FleetInv(home, fleets[0])
  {
    hide CanStep, After, TodoReady, PcOfEvent;
    var f := fleets[0];
    forall id: nat ensures WalkerOwn(home, f, id) {}
    assert forall g :: !InFlight(f.s, g);
    assert forall g :: LeadCount(f.s.w, g) == 0;
  }

  lemma {:induction false} FleetKeepsInv(home: Home, fleets: seq<Fleet>, steps: seq<Step>, i: nat)
    requires IsFleetRun(fleets, steps) && i < |fleets|
    requires forall k :: 0 <= k < i ==>
               L.Prompt(fleets[k].q) && NoOrderAcrossEvents(home, fleets[k].s.w.registrations)
                   && TableKept(fleets[k], steps[k])
    ensures FleetInv(home, fleets[i])
  {
    if i > 0 {
      FleetKeepsInv(home, fleets, steps, i - 1);
      var f, m := fleets[i - 1], steps[i - 1];
      assert CanStep(f, m) && fleets[i - 1 + 1] == After(f, m);
      hide IsFleetRun, CanStep, After, NoOrderAcrossEvents, TableKept, ApartInv, WalkerOwn, L.Prompt, L.Exclusive,
          L.Stamped;
      StepKeepsExclusive(f, m);
      StepKeepsApartInv(home, f, m);
      StepKeepsOwn(home, f, m);
    } else {
      StartsWithInv(home, fleets, steps);
    }
  }

  /**
   ONE LEAD PER GROUP, FROM THE LEASE. Over every run of hosts claiming, walking, dying and finishing
   in any interleaving, with arms and edits in between: if no walk outlives its lease and no order has
   registrations of two events, then no two walkers are on one event, none is inside another's group, and all
   a single walk keeps is kept: junctioned rows are in the last payload accepted for their one group, which
   has a lead; no payload names anybody twice; a group is created once, plus at most once per death.
   */
  lemma LeaseKeepsWalksSafe(home: Home, fleets: seq<Fleet>, steps: seq<Step>, i: nat)
    requires IsFleetRun(fleets, steps) && i < |fleets|
    requires forall k :: 0 <= k < i ==>
               L.Prompt(fleets[k].q) && NoOrderAcrossEvents(home, fleets[k].s.w.registrations)
                   && TableKept(fleets[k], steps[k])
    ensures L.Exclusive(fleets[i].q) && Apart(fleets[i].s)
    ensures JunctionInv(fleets[i].s.w) && PayloadInv(fleets[i].s.w)
    ensures forall g :: Creates(fleets[i].s.w.log, g) <= 1 + fleets[i].s.w.faults
  {
    FleetKeepsInv(home, fleets, steps, i);
    OwnIsApart(home, fleets[i]);
    hide IsFleetRun;
    ApartCreatesOnce(fleets[i].s);
    hide JunctionInv, PayloadInv, Creates, Apart, L.Exclusive;
  }
}
