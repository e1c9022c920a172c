/**
 Walkers that never meet: any number at once, but no two inside one group's commit and none holding a
 registration another holds under the same rule. Then everything a single walker keeps is kept.
 */
module LeadApart {
  import opened Wrappers
  import opened Text
  import opened LeadModel
  import opened LeadGrouping
  import opened LeadWalk
  import opened LeadInvariant
  import opened LeadProtocol

  function GroupOf(pc: Pc): (g: GroupId)
    requires !pc.Idle?
  {
    pc.g
  }

  /** The registrations a walker is about to junction. */
  function Held(pc: Pc): (ids: set<Uuid>) {
    match pc
    case Idle => {}
    case Upserted(_, _, _, members, _) => Ids(members)
    case MembersRead(_, _, _, members, _, _) => Ids(members)
    case Minted(_, added, _) => Ids(added)
    case Linked(_, added) => Ids(added)
  }

  ghost predicate Clear(a: Pc, b: Pc) {
    a.Idle? || b.Idle? || (GroupOf(a) != GroupOf(b) && (GroupOf(a).ruleId == GroupOf(b).ruleId ==> Held(a) !! Held(b)))
  }

  ghost predicate Apart(s: System) {
    forall a, b :: a in s.pcs && b in s.pcs && a != b ==> Clear(s.pcs[a], s.pcs[b])
  }

  /** A commit starts from rows of the table the rule has not grouped; an edit keeps the table's ids. */
  ghost predicate Grounded(w: World, m: Move) {
    match m
    case Upsert(_, g, _, _, members) => Distinct(members) && Loose(w, g, Ids(members))
    case Edit(registrations) => AscendingIds(registrations) && Ids(w.registrations) <= Ids(registrations)
    case _ => true
  }

  ghost predicate Loose(w: World, g: GroupId, ids: set<Uuid>) {
    ids <= Ids(w.registrations) && ids !! JoinedIds(w.junction, g.ruleId)
  }

  function JunctionOf(w: World, g: GroupId): (ids: set<Uuid>) {
    set p | p in w.junction && p.0 == g :: p.1
  }

  /** The last payload the sink accepted for the group names its members and `ids`. */
  ghost predicate Covered(w: World, g: GroupId, ids: set<Uuid>) {
    JunctionOf(w, g) + ids <= LastAccepted(w.log, g)
  }

  /** What a walker knows of its group, nobody else being in it. */
  ghost predicate Knows(w: World, pc: Pc) {
    match pc
    case Idle => true
    case Upserted(g, _, _, members, lead) =>
      g in w.groups && (lead.Some? <==> HasLead(w, g)) && Distinct(members) && Loose(w, g, Ids(members))
    case MembersRead(g, _, _, members, lead, known) =>
      && g in w.groups && (lead.Some? <==> HasLead(w, g)) && Distinct(members) && Loose(w, g, Ids(members))
      && Distinct(known) && Ids(known) == JunctionOf(w, g)
    case Minted(g, added, _) => g in w.groups && !HasLead(w, g) && Loose(w, g, Ids(added)) && Covered(w, g, Ids(added))
    case Linked(g, added) => HasLead(w, g) && Loose(w, g, Ids(added)) && Covered(w, g, Ids(added))
  }

  /** A create accepted for the group whose lead id is still to be stored. */
  ghost predicate InFlight(s: System, g: GroupId) {
    exists id :: id in s.pcs && s.pcs[id].Minted? && s.pcs[id].g == g
  }

  ghost function Minting(s: System, g: GroupId): (n: nat) {
    LeadCount(s.w, g) + if InFlight(s, g) then 1 else 0
  }

  ghost predicate CreatedOnce(s: System) {
    forall g :: Minting(s, g) <= Creates(s.w.log, g) <= Minting(s, g) + s.w.faults
  }

  ghost predicate ApartInv(s: System) {
    && JunctionInv(s.w) && PayloadInv(s.w) && CreatedOnce(s)
    && forall id :: id in s.pcs ==> Knows(s.w, s.pcs[id])
  }

  // ── the others' moves ──

  /** What a step outside the group leaves of it. */
  ghost predicate Undisturbed(w: World, w': World, pc: Pc) {
    pc.Idle? ||
    var g := GroupOf(pc);
    && (g in w.groups ==> g in w'.groups) && (HasLead(w', g) <==> HasLead(w, g))
    && LastAccepted(w'.log, g) == LastAccepted(w.log, g)
    && JunctionOf(w', g) == JunctionOf(w, g)
    && Ids(w.registrations) <= Ids(w'.registrations)
    && JoinedIds(w'.junction, g.ruleId) * Held(pc) <= JoinedIds(w.junction, g.ruleId)
  }

  lemma KnowsStays(w: World, w': World, pc: Pc)
    requires Undisturbed(w, w', pc) && Knows(w, pc)
    ensures Knows(w', pc)
  {
    hide Ids, LastAccepted, JunctionOf, JoinedIds, Distinct;
  }

  function MoverOf(m: Move): (id: Option<nat>) {
    match m
    case Upsert(id, _, _, _, _) => Some(id)
    case Read(id) => Some(id)
    case Call(id, _, _) => Some(id)
    case StoreLead(id) => Some(id)
    case Junction(id) => Some(id)
    case Die(id) => Some(id)
    case _ => None
  }

  lemma OthersStand(s: System, m: Move, id: nat)
    requires Enabled(s, m) && MoverOf(m) != Some(id)
    ensures (id in Next(s, m).pcs <==> id in s.pcs) && (id in s.pcs ==> Next(s, m).pcs[id] == s.pcs[id])
  {
    hide GroupMembers, Added, Ids, CallFor;
  }

  lemma LastOfAppend(log: seq<SinkCall>, c: SinkCall, g: GroupId)
    ensures LastAccepted(log + [c], g) == if c.group == g && c.accepted then PayloadIds(c) else LastAccepted(log, g)
  {
    assert (log + [c])[..|log|] == log;
  }

  /** The pairs a junction step adds touch its own group and the registrations it holds. */
  lemma PairsTouch(w: World, g: GroupId, ids: set<Uuid>, k: GroupId)
    ensures var w' := w.(junction := w.junction + Pairs(g, ids));
            && JunctionOf(w', k) == (if k == g then JunctionOf(w, g) + ids else JunctionOf(w, k))
            && JoinedIds(w'.junction, k.ruleId) == (if k.ruleId == g.ruleId then JoinedIds(w.junction, k.ruleId) + ids
                                                    else JoinedIds(w.junction, k.ruleId))
  {
    var more := w.junction + Pairs(g, ids);
    forall x ensures x in JunctionOf(w.(junction := more), k) <==> x in JunctionOf(w, k) || (k == g && x in ids) {
      assert (k, x) in more <==> (k, x) in w.junction || (k == g && x in ids);
    }
    forall x | x in ids ensures (g, x) in more {}
    forall x ensures x in JoinedIds(more, k.ruleId)
        <==> x in JoinedIds(w.junction, k.ruleId) || (k.ruleId == g.ruleId && x in ids) {
      if x in ids { assert (g, x) in more; }
    }
  }

  lemma CallUndisturbs(s: System, m: Move, pc: Pc)
    requires Enabled(s, m) && m.Call? && Clear(s.pcs[m.id], pc)
    ensures Undisturbed(s.w, Next(s, m).w, pc)
  {
    hide GroupMembers, Added, Ids, LastAccepted, JunctionOf, JoinedIds;
    if !pc.Idle? {
      var mover := s.pcs[m.id];
      var call := CallFor(mover.lead, mover.g, mover.eventId, mover.grouping, mover.known,
          Added(mover.members, Ids(mover.known)));
      LastOfAppend(s.w.log, call.(accepted := m.accepted), GroupOf(pc));
      hide CallFor;
      SameJunction(s.w, Next(s, m).w, GroupOf(pc));
    }
  }

  lemma SameJunction(w: World, w': World, g: GroupId)
    requires w'.junction == w.junction
    ensures JunctionOf(w', g) == JunctionOf(w, g)
  {
  }

  lemma JunctionUndisturbs(s: System, m: Move, pc: Pc)
    requires Enabled(s, m) && m.Junction? && Clear(s.pcs[m.id], pc)
    ensures Undisturbed(s.w, Next(s, m).w, pc)
  {
    hide GroupMembers, Added, Ids, LastAccepted, JunctionOf, JoinedIds, Pairs;
    if !pc.Idle? {
      var mover := s.pcs[m.id];
      PairsTouch(s.w, mover.g, Ids(mover.added), GroupOf(pc));
      SameJunction(s.w.(junction := s.w.junction + Pairs(mover.g, Ids(mover.added))), Next(s, m).w, GroupOf(pc));
    }
  }

  lemma OtherUndisturbed(s: System, m: Move, pc: Pc)
    requires Enabled(s, m) && Grounded(s.w, m) && Knows(s.w, pc)
    requires MoverOf(m).Some? && !m.Upsert? && !m.Read? && !m.Die? ==> Clear(s.pcs[MoverOf(m).value], pc)
    ensures Undisturbed(s.w, Next(s, m).w, pc)
  {
    if m.Call? {
      CallUndisturbs(s, m, pc);
    } else if m.Junction? {
      JunctionUndisturbs(s, m, pc);
    } else {
      hide GroupMembers, Added, Ids, LastAccepted, JoinedIds, Distinct;
      if !pc.Idle? {
        SameJunction(s.w, Next(s, m).w, GroupOf(pc));
        hide JunctionOf;
      }
    }
  }

  // ── the mover's own ──

  lemma ReadKnows(s: System, m: Move)
    requires Enabled(s, m) && ApartInv(s) && m.Read?
    ensures Knows(Next(s, m).w, Next(s, m).pcs[m.id])
  {
    var pc := s.pcs[m.id];
    assert Knows(s.w, pc);
    hide PayloadInv, CreatedOnce, LastAccepted, JoinedIds;
    MembersInFacts(s.w.registrations, s.w.junction, pc.g);
    GroupMembersIds(s.w, pc.g);
    var known := GroupMembers(s.w, pc.g);
    hide GroupMembers;
    assert Ids(known) == JunctionOf(s.w, pc.g);
    assert Distinct(known);
  }

  /** The newcomers are members of no group of the rule, so of none of the known rows. */
  lemma AddedIsLoose(w: World, pc: Pc)
    requires pc.MembersRead? && Knows(w, pc)
    ensures var added := Added(pc.members, Ids(pc.known));
            && Distinct(added) && Loose(w, pc.g, Ids(added)) && Ids(pc.known) !! Ids(added)
  {
    AddedFacts(pc.members, Ids(pc.known));
    var added := Added(pc.members, Ids(pc.known));
    hide Added, LastAccepted, JunctionOf, JoinedIds;
    assert Ids(added) <= Ids(pc.members);
    forall x | x in Ids(added) ensures x !in Ids(pc.known) {
      var r :| r in added && r.id == x;
    }
  }

  lemma CallPayload(w: World, pc: Pc, call: SinkCall)
    requires pc.MembersRead? && Knows(w, pc)
    requires call.payload == ViewsOf(pc.known) + ViewsOf(Added(pc.members, Ids(pc.known)))
    ensures NoRepeats(call.payload)
    ensures PayloadIds(call) == JunctionOf(w, pc.g) + Ids(Added(pc.members, Ids(pc.known)))
  {
    var added := Added(pc.members, Ids(pc.known));
    AddedIsLoose(w, pc);
    hide Added, Loose, HasLead;
    DisjointViewsNoRepeats(pc.known, added);
    ViewsOfIds(pc.known);
    ViewsOfIds(added);
    hide Distinct, NoRepeats, JunctionOf;
    assert PayloadIds(call) == ViewIds(ViewsOf(pc.known)) + ViewIds(ViewsOf(added));
  }

  /** The call a walker makes now. */
  function CallAt(s: System, m: Move): (c: SinkCall)
    requires Enabled(s, m) && m.Call?
  {
    var pc := s.pcs[m.id];
    CallFor(pc.lead, pc.g, pc.eventId, pc.grouping, pc.known, Added(pc.members, Ids(pc.known))).(accepted := m.accepted)
  }

  /** What a walker's call leaves. */
  lemma CallStep(s: System, m: Move)
    requires Enabled(s, m) && m.Call?
    ensures var pc, s' := s.pcs[m.id], Next(s, m);
            var added := Added(pc.members, Ids(pc.known));
            m.id in s'.pcs
            && if pc.lead.Some? && added == [] then s'.w == s.w && s'.pcs[m.id] == Idle
               else
                 && s'.w == s.w.(log := s.w.log + [CallAt(s, m)])
                 && s'.pcs[m.id] == if !m.accepted then Idle
                                    else if pc.lead.Some? then Linked(pc.g, added) else Minted(pc.g, added, m.minted)
  {
    hide Added, Ids, CallFor, GroupMembers;
  }

  lemma CallPayloadIs(s: System, m: Move)
    requires Enabled(s, m) && m.Call?
    ensures var pc := s.pcs[m.id];
            CallAt(s, m).group == pc.g && CallAt(s, m).accepted == m.accepted
            && CallAt(s, m).payload == ViewsOf(pc.known) + ViewsOf(Added(pc.members, Ids(pc.known)))
  {
  }

  lemma CallKnows(s: System, m: Move)
    requires Enabled(s, m) && ApartInv(s) && m.Call?
    ensures Knows(Next(s, m).w, Next(s, m).pcs[m.id])
  {
    var pc := s.pcs[m.id];
    assert Knows(s.w, pc);
    hide ApartInv, Covered, Loose, Next, Enabled, LastAccepted, JunctionOf, JoinedIds, CallAt, Added, Ids, Distinct;
    CallStep(s, m);
    AddedIsLoose(s.w, pc);
    CallPayloadIs(s, m);
    var added := Added(pc.members, Ids(pc.known));
    if m.accepted { CallCovers(s.w, pc, CallAt(s, m)); }
    LooseStays(s.w, s.w.(log := s.w.log + [CallAt(s, m)]), pc.g, Ids(added));
  }

  lemma LooseStays(w: World, w': World, g: GroupId, ids: set<Uuid>)
    requires w'.registrations == w.registrations && w'.junction == w.junction && Loose(w, g, ids)
    ensures Loose(w', g, ids)
  {
  }

  lemma CallCovers(w: World, pc: Pc, call: SinkCall)
    requires pc.MembersRead? && Knows(w, pc) && call.accepted && call.group == pc.g
    requires call.payload == ViewsOf(pc.known) + ViewsOf(Added(pc.members, Ids(pc.known)))
    ensures Covered(w.(log := w.log + [call]), pc.g, Ids(Added(pc.members, Ids(pc.known))))
  {
    CallPayload(w, pc, call);
    LastOfAppend(w.log, call, pc.g);
    SameJunction(w, w.(log := w.log + [call]), pc.g);
    hide Added, LastAccepted, JunctionOf, Ids, PayloadIds, ViewsOf, Knows;
  }

  lemma MoverKnows(s: System, m: Move)
    requires Enabled(s, m) && ApartInv(s) && Grounded(s.w, m) && MoverOf(m).Some?
    ensures MoverOf(m).value in Next(s, m).pcs && Knows(Next(s, m).w, Next(s, m).pcs[MoverOf(m).value])
  {
    if m.Read? {
      ReadKnows(s, m);
    } else if m.Call? {
      CallKnows(s, m);
    } else {
      if m.StoreLead? { assert Knows(s.w, s.pcs[m.id]); }
      hide JunctionInv, PayloadInv, CreatedOnce, GroupMembers, Added, LastAccepted, JoinedIds, Ids, Distinct;
    }
  }

  lemma MoveKeepsKnowledge(s: System, m: Move)
    requires Enabled(s, m) && ApartInv(s) && Grounded(s.w, m) && Apart(s)
    ensures forall id :: id in Next(s, m).pcs ==> Knows(Next(s, m).w, Next(s, m).pcs[id])
  {
    var s' := Next(s, m);
    forall id | id in s'.pcs ensures Knows(s'.w, s'.pcs[id]) {
      if MoverOf(m) == Some(id) {
        MoverKnows(s, m);
      } else {
        OthersStand(s, m, id);
        hide JunctionInv, PayloadInv, CreatedOnce, Next, Clear, Knows, Undisturbed, Grounded;
        assert Knows(s.w, s.pcs[id]);
        OtherUndisturbed(s, m, s.pcs[id]);
        KnowsStays(s.w, s'.w, s.pcs[id]);
      }
    }
  }

  // ── the tables ──

  /** The sink's step changes the last payload of one group, and covers its members. */
  lemma CallKeepsTables(s: System, m: Move)
    requires Enabled(s, m) && ApartInv(s) && m.Call?
    ensures JunctionInv(Next(s, m).w) && PayloadInv(Next(s, m).w)
  {
    var pc := s.pcs[m.id];
    assert Knows(s.w, pc);
    CallStep(s, m);
    CallPayload(s.w, pc, CallAt(s, m));
    var call := CallAt(s, m);
    hide Knows, Next, Enabled, Added, Ids, CallAt, PayloadIds, NoRepeats, CreatedOnce;
    CallKeepsMembers(s.w, call);
    hide JunctionOf;
  }

  lemma CallKeepsMembers(w: World, call: SinkCall)
    requires JunctionInv(w) && PayloadInv(w) && NoRepeats(call.payload)
    requires JunctionOf(w, call.group) <= PayloadIds(call)
    ensures JunctionInv(w.(log := w.log + [call])) && PayloadInv(w.(log := w.log + [call]))
  {
    var w' := w.(log := w.log + [call]);
    hide AscendingIds, Ids, NoRepeats, PayloadIds;
    forall p | p in w'.junction ensures p.1 in LastAccepted(w'.log, p.0) {
      LastOfAppend(w.log, call, p.0);
      assert p.1 in LastAccepted(w.log, p.0) && (p.0 == call.group ==> p.1 in JunctionOf(w, call.group));
    }
    hide LastAccepted, JunctionOf;
  }

  lemma JunctionKeepsTables(s: System, m: Move)
    requires Enabled(s, m) && ApartInv(s) && m.Junction?
    ensures JunctionInv(Next(s, m).w)
  {
    var pc := s.pcs[m.id];
    assert Knows(s.w, pc);
    hide CreatedOnce, Knows, ApartInv, PayloadInv, GroupMembers, Added, AscendingIds;
    var w' := Next(s, m).w;
    var ids := Ids(pc.added);
    assert Loose(s.w, pc.g, ids) && Covered(s.w, pc.g, ids) && HasLead(s.w, pc.g) by { LinkedKnows(s.w, pc); }
    hide Ids, LastAccepted;
    assert forall r :: r in pc.added ==> r.id !in JoinedIds(s.w.junction, pc.g.ruleId) by {
      LooseRows(s.w, pc.g, pc.added);
    }
    JunctionStaysUnique(s.w, w', pc.g.ruleId, pc.g, pc.added);
    hide JoinedIds, JunctionOf;
  }

  lemma LooseRows(w: World, g: GroupId, rows: seq<Registration>)
    requires Loose(w, g, Ids(rows))
    ensures forall r :: r in rows ==> r.id !in JoinedIds(w.junction, g.ruleId)
  {
    hide JoinedIds;
    forall r | r in rows ensures r.id !in JoinedIds(w.junction, g.ruleId) { assert r.id in Ids(rows); }
  }

  lemma LinkedKnows(w: World, pc: Pc)
    requires pc.Linked? && Knows(w, pc)
    ensures Loose(w, pc.g, Ids(pc.added)) && Covered(w, pc.g, Ids(pc.added)) && HasLead(w, pc.g)
  {
  }

  lemma MoveKeepsTables(s: System, m: Move)
    requires Enabled(s, m) && ApartInv(s) && Grounded(s.w, m)
    ensures JunctionInv(Next(s, m).w) && PayloadInv(Next(s, m).w)
  {
    if m.Call? {
      CallKeepsTables(s, m);
    } else if m.Junction? {
      JunctionKeepsTables(s, m);
      hide JunctionInv, GroupMembers, Added, Ids;
    } else {
      hide CreatedOnce, Knows, GroupMembers, Added, Ids, LastAccepted, AscendingIds, NoRepeats;
    }
  }

  // ── creates ──

  lemma OnlyOneInside(s: System, a: nat, b: nat)
    requires Apart(s) && a in s.pcs && b in s.pcs && !s.pcs[a].Idle? && !s.pcs[b].Idle? && s.pcs[a].g == s.pcs[b].g
    ensures a == b
  {
  }

  lemma SoloFlight(s: System, id: nat, g: GroupId)
    requires Apart(s) && id in s.pcs && !s.pcs[id].Idle? && s.pcs[id].g == g
    ensures InFlight(s, g) <==> s.pcs[id].Minted?
  {
    if InFlight(s, g) {
      var other :| other in s.pcs && s.pcs[other].Minted? && s.pcs[other].g == g;
      OnlyOneInside(s, id, other);
    }
  }

  /** Outside the mover's group nothing takes off or lands. */
  lemma FlightElsewhere(s: System, m: Move, g: GroupId)
    requires Enabled(s, m)
    requires MoverOf(m).Some? && MoverOf(m).value in s.pcs && !s.pcs[MoverOf(m).value].Idle? ==>
        s.pcs[MoverOf(m).value].g != g
    ensures InFlight(Next(s, m), g) <==> InFlight(s, g)
  {
    var s' := Next(s, m);
    hide GroupMembers, Added, Ids, CallFor;
    if MoverOf(m) == None { assert s'.pcs == s.pcs; }
    if InFlight(s, g) {
      var id :| id in s.pcs && s.pcs[id].Minted? && s.pcs[id].g == g;
      assert id in s'.pcs && s'.pcs[id] == s.pcs[id];
    }
    if InFlight(s', g) {
      var id :| id in s'.pcs && s'.pcs[id].Minted? && s'.pcs[id].g == g;
      assert id in s.pcs && s'.pcs[id] == s.pcs[id];
    }
  }

  /** In the mover's own group, what is in flight afterwards is the mover's. */
  lemma FlightHere(s: System, m: Move)
    requires Enabled(s, m) && Apart(s) && MoverOf(m).Some?
    requires MoverOf(m).value in s.pcs && !s.pcs[MoverOf(m).value].Idle?
    ensures var id, g := MoverOf(m).value, s.pcs[MoverOf(m).value].g;
            InFlight(Next(s, m), g) <==> Next(s, m).pcs[id].Minted?
  {
    var id, g := MoverOf(m).value, s.pcs[MoverOf(m).value].g;
    var s' := Next(s, m);
    hide GroupMembers, Added, Ids, CallFor;
    if s'.pcs[id].Minted? { assert s'.pcs[id].g == g; }
    if InFlight(s', g) {
      var other :| other in s'.pcs && s'.pcs[other].Minted? && s'.pcs[other].g == g;
      if other != id {
        OthersStand(s, m, other);
        OnlyOneInside(s, id, other);
      }
    }
  }

  lemma CallCreates(s: System, m: Move, g: GroupId)
    requires Enabled(s, m) && ApartInv(s) && Apart(s) && m.Call?
    ensures Minting(Next(s, m), g) - Minting(s, g) == Creates(Next(s, m).w.log, g) - Creates(s.w.log, g)
  {
    var pc := s.pcs[m.id];
    assert Knows(s.w, pc);
    hide JunctionInv, PayloadInv, CreatedOnce, ApartInv, InFlight, Clear, Creates, GroupMembers, Loose;
    var added := Added(pc.members, Ids(pc.known));
    CreatesOfAppend(s.w.log,
        CallFor(pc.lead, pc.g, pc.eventId, pc.grouping, pc.known, added).(accepted := m.accepted), g);
    hide Added, Ids;
    if g == pc.g {
      SoloFlight(s, m.id, g);
      FlightHere(s, m);
    } else {
      FlightElsewhere(s, m, g);
    }
    hide Apart;
  }

  lemma StoreCreates(s: System, m: Move, g: GroupId)
    requires Enabled(s, m) && ApartInv(s) && Apart(s) && m.StoreLead?
    ensures Minting(Next(s, m), g) == Minting(s, g) && Next(s, m).w.log == s.w.log
  {
    var pc := s.pcs[m.id];
    assert Knows(s.w, pc);
    hide JunctionInv, PayloadInv, CreatedOnce, ApartInv, InFlight, Clear, GroupMembers, Loose, Covered, Added, Ids;
    if g == pc.g {
      SoloFlight(s, m.id, g);
      FlightHere(s, m);
    } else {
      FlightElsewhere(s, m, g);
    }
    hide Apart;
  }

  /** Any other step keeps each count, but that a walker cut off in flight leaves its create behind. */
  lemma QuietCreates(s: System, m: Move, g: GroupId)
    requires Enabled(s, m) && Apart(s) && !m.Call? && !m.StoreLead?
    ensures Next(s, m).w.log == s.w.log
    ensures Minting(Next(s, m), g) <= Minting(s, g) <= Minting(Next(s, m), g) + Next(s, m).w.faults - s.w.faults
  {
    hide InFlight, Clear, GroupMembers, Added, Ids;
    var id := MoverOf(m);
    if id.Some? && id.value in s.pcs && !s.pcs[id.value].Idle? && s.pcs[id.value].g == g {
      SoloFlight(s, id.value, g);
      FlightHere(s, m);
    } else {
      FlightElsewhere(s, m, g);
    }
    hide Apart;
  }

  lemma MoveKeepsCreatedOnce(s: System, m: Move)
    requires Enabled(s, m) && ApartInv(s) && Apart(s)
    ensures CreatedOnce(Next(s, m))
  {
    var s' := Next(s, m);
    hide Next, Enabled, JunctionInv, PayloadInv, Knows, Apart, Creates, Minting;
    forall g ensures Minting(s', g) <= Creates(s'.w.log, g) <= Minting(s', g) + s'.w.faults {
      assert Minting(s, g) <= Creates(s.w.log, g) <= Minting(s, g) + s.w.faults;
      if m.Call? {
        CallCreates(s, m, g);
      } else if m.StoreLead? {
        StoreCreates(s, m, g);
      } else {
        QuietCreates(s, m, g);
      }
      FaultsGrow(s, m);
    }
  }

  lemma FaultsGrow(s: System, m: Move)
    requires Enabled(s, m)
    ensures Next(s, m).w.faults == s.w.faults + if m.Die? then 1 else 0
  {
    hide GroupMembers, Added, Ids;
  }

  // ── the theorem ──

  lemma MoveKeepsApartInv(s: System, m: Move)
    requires Enabled(s, m) && ApartInv(s) && Apart(s) && Grounded(s.w, m)
    ensures ApartInv(Next(s, m))
  {
    hide Next, Enabled, JunctionInv, PayloadInv, CreatedOnce, Knows, Apart, Grounded;
    MoveKeepsTables(s, m);
    MoveKeepsCreatedOnce(s, m);
    MoveKeepsKnowledge(s, m);
  }

  lemma {:induction false} ApartKeepsInv(states: seq<System>, moves: seq<Move>, i: nat)
    requires IsRun(states, moves) && i < |states|
    requires forall k :: 0 <= k < i ==> Apart(states[k]) && Grounded(states[k].w, moves[k])
    ensures ApartInv(states[i])
  {
    if i > 0 {
      ApartKeepsInv(states, moves, i - 1);
      var s, m := states[i - 1], moves[i - 1];
      assert Enabled(s, m) && states[i - 1 + 1] == Next(s, m);
      hide IsRun, Next, Enabled, ApartInv, Apart, Grounded;
      MoveKeepsApartInv(s, m);
    } else {
      hide Next, Enabled;
      assert forall g :: !InFlight(states[0], g);
      assert forall g :: LeadCount(states[0].w, g) == 0;
    }
  }

  /**
   WALKERS THAT STAY APART ARE AS GOOD AS ONE. Any number of them, dying where they may, no two ever
   inside one group's commit nor holding one registration under one rule: a junctioned registration is
   in the last payload accepted for its group, the group has a lead, it is in one group per rule, no
   payload names anybody twice, and a group is created once, plus at most once for each death.
   */
  lemma ApartIsSafe(states: seq<System>, moves: seq<Move>, i: nat)
    requires IsRun(states, moves) && i < |states|
    requires forall k :: 0 <= k < i ==> Apart(states[k]) && Grounded(states[k].w, moves[k])
    ensures JunctionInv(states[i].w) && PayloadInv(states[i].w)
    ensures forall g :: Creates(states[i].w.log, g) <= 1 + states[i].w.faults
  {
    ApartKeepsInv(states, moves, i);
    hide IsRun;
    ApartCreatesOnce(states[i]);
    hide JunctionInv, PayloadInv, Creates;
  }

  lemma ApartCreatesOnce(s: System)
    requires ApartInv(s)
    ensures forall g :: Creates(s.w.log, g) <= 1 + s.w.faults
  {
    hide JunctionInv, PayloadInv, Creates;
    forall g ensures Minting(s, g) <= 1 {
      if InFlight(s, g) {
        var id :| id in s.pcs && s.pcs[id].Minted? && s.pcs[id].g == g;
        assert Knows(s.w, s.pcs[id]);
      }
    }
    forall g ensures Creates(s.w.log, g) <= 1 + s.w.faults { assert Creates(s.w.log, g) <= Minting(s, g) + s.w.faults; }
  }

  /** Walkers of different events meet in a group exactly when both carry the same order: all a lease per
      event leaves to be arranged. */
  lemma EventsMeetInAnOrder(e: Uuid, r: Registration, f: Uuid, q: Registration)
    requires e != f
    ensures SlotOf(e, r).key == SlotOf(f, q).key <==> r.saleOrderId.Some? && r.saleOrderId == q.saleOrderId
  {
    if SlotOf(e, r).key == SlotOf(f, q).key { KeyDeterminesSlot(e, r, f, q); }
    hide UuidText;
  }
}
