/**
 Any number of walkers committing groups at once, one awaited operation at a time, each
 free to die between two of them. The lease is per event while an order's group key is
 the order alone, so two walkers may share a group even when no event has two.
 */
module LeadProtocol {
  import opened Wrappers
  import opened Text
  import opened Registrations
  import opened LeadModel
  import opened LeadGrouping
  import opened LeadWalk
  import opened LeadInvariant

  /** Where a walker is within one group's commit. */
  datatype Pc =
    | Idle
    | Upserted(g: GroupId, eventId: Uuid, grouping: string, members: seq<Registration>, lead: Option<Uuid>)
    | MembersRead(g: GroupId, eventId: Uuid, grouping: string, members: seq<Registration>, lead: Option<Uuid>,
                  known: seq<Registration>)
    | Minted(g: GroupId, added: seq<Registration>, minted: Uuid)
    | Linked(g: GroupId, added: seq<Registration>)

  datatype System = System(w: World, pcs: map<nat, Pc>)

  /** One step of one walker, a walker's death, or an edit of the rows. */
  datatype Move =
    | Upsert(id: nat, g: GroupId, eventId: Uuid, grouping: string, members: seq<Registration>)
    | Read(id: nat)
    | Call(id: nat, accepted: bool, minted: Uuid)
    | StoreLead(id: nat)
    | Junction(id: nat)
    | Die(id: nat)
    | Edit(registrations: seq<Registration>)
    | Relink(old': Uuid, new': Uuid)

  function At(s: System, id: nat): Pc {
    if id in s.pcs then s.pcs[id] else Idle
  }

  predicate Enabled(s: System, m: Move) {
    match m
    case Upsert(id, _, _, _, _) => At(s, id) == Idle
    case Read(id) => At(s, id).Upserted?
    case Call(id, _, _) => At(s, id).MembersRead?
    case StoreLead(id) => At(s, id).Minted?
    case Junction(id) => At(s, id).Linked?
    case Die(_) => true
    case Edit(_) => true
    case Relink(_, _) => true
  }

  /** The upsert, store and junction write exactly what the repository's statements write. */
  function Next(s: System, m: Move): (r: System)
    requires Enabled(s, m)
  {
    var w := s.w;
    match m
    case Upsert(id, g, eventId, grouping, members) =>
      var groups := if g in w.groups then w.groups else w.groups[g := Provenance(eventId, grouping, None)];
      System(w.(groups := groups), s.pcs[id := Upserted(g, eventId, grouping, members, groups[g].lead)])
    case Read(id) =>
      var pc := s.pcs[id];
      s.(pcs := s.pcs[id := MembersRead(pc.g, pc.eventId, pc.grouping, pc.members, pc.lead, GroupMembers(w, pc.g))])
    case Call(id, accepted, minted) =>
      var pc := s.pcs[id];
      var added := Added(pc.members, Ids(pc.known));
      if pc.lead.Some? && added == [] then s.(pcs := s.pcs[id := Idle])
      else
        var call := CallFor(pc.lead, pc.g, pc.eventId, pc.grouping, pc.known, added).(accepted := accepted);
        System(w.(log := w.log + [call]),
               s.pcs[id := if !accepted then Idle
                           else if pc.lead.Some? then Linked(pc.g, added) else Minted(pc.g, added, minted)])
    case StoreLead(id) =>
      var pc := s.pcs[id];
      System(if pc.g in w.groups then w.(groups := w.groups[pc.g := w.groups[pc.g].(lead := Some(pc.minted))]) else w,
             s.pcs[id := Linked(pc.g, pc.added)])
    case Junction(id) =>
      var pc := s.pcs[id];
      System(w.(junction := w.junction + Pairs(pc.g, Ids(pc.added))), s.pcs[id := Idle])
    case Die(id) => System(w.(faults := w.faults + 1), s.pcs[id := Idle])
    case Edit(registrations) => s.(w := w.(registrations := registrations))
    case Relink(absorbed, survivor) =>
      s.(w := w.(groups := map k | k in w.groups ::
        if w.groups[k].lead == Some(absorbed) then w.groups[k].(lead := Some(survivor)) else w.groups[k]))
  }

  ghost predicate IsRun(states: seq<System>, moves: seq<Move>) {
    && |states| == |moves| + 1
    && states[0] == System(World([], [], [], map[], {}, [], 0, 0, 0, 0, EMPTY_SUMMARY), map[])
    && forall i :: 0 <= i < |moves| ==> Enabled(states[i], moves[i]) && states[i + 1] == Next(states[i], moves[i])
  }

  /** Some accepted call for the group named the registration. */
  ghost predicate Shown(log: seq<SinkCall>, g: GroupId, x: Uuid) {
    exists c :: 0 <= c < |log| && log[c].accepted && log[c].group == g && x in PayloadIds(log[c])
  }

  ghost predicate AllShown(log: seq<SinkCall>, g: GroupId, rows: seq<Registration>) {
    forall r :: r in rows ==> Shown(log, g, r.id)
  }

  ghost predicate HasLead(w: World, g: GroupId) {
    g in w.groups && w.groups[g].lead.Some?
  }

  /** What a walker may rely on at each point, however the others move. */
  ghost predicate PcInv(w: World, pc: Pc) {
    match pc
    case Idle => true
    case Upserted(g, _, _, _, lead) => g in w.groups && (lead.Some? ==> HasLead(w, g))
    case MembersRead(g, _, _, _, lead, _) => g in w.groups && (lead.Some? ==> HasLead(w, g))
    case Minted(g, added, _) => g in w.groups && AllShown(w.log, g, added)
    case Linked(g, added) => HasLead(w, g) && AllShown(w.log, g, added)
  }

  ghost predicate SysInv(s: System) {
    && (forall p :: p in s.w.junction ==> Shown(s.w.log, p.0, p.1) && HasLead(s.w, p.0))
    && (forall id :: id in s.pcs ==> PcInv(s.w, s.pcs[id]))
  }

  /** Rows are only added to, and leads once set stay set. */
  ghost predicate Onward(w: World, w': World) {
    && w.log <= w'.log
    && forall g :: (g in w.groups ==> g in w'.groups) && (HasLead(w, g) ==> HasLead(w', g))
  }

  lemma ShownOnward(log: seq<SinkCall>, log': seq<SinkCall>, g: GroupId, x: Uuid)
    requires log <= log' && Shown(log, g, x)
    ensures Shown(log', g, x)
  {
    var c :| 0 <= c < |log| && log[c].accepted && log[c].group == g && x in PayloadIds(log[c]);
    assert log'[c] == log[c];
  }

  lemma PcInvOnward(w: World, w': World, pc: Pc)
    requires Onward(w, w') && PcInv(w, pc)
    ensures PcInv(w', pc)
  {
    hide Shown;
    match pc
    case Minted(g, added, _) => forall r | r in added ensures Shown(w'.log, g, r.id) {
      ShownOnward(w.log, w'.log, g, r.id);
    }
    case Linked(g, added) => forall r | r in added ensures Shown(w'.log, g, r.id) {
      ShownOnward(w.log, w'.log, g, r.id);
    }
    case _ =>
  }

  lemma MoveIsOnward(s: System, m: Move)
    requires Enabled(s, m)
    ensures Onward(s.w, Next(s, m).w)
  {
    hide GroupMembers, Added, Ids;
  }

  lemma AcceptedCallShows(w: World, pc: Pc, call: SinkCall)
    requires pc.MembersRead? && call.accepted && call.group == pc.g
    requires call.payload == ViewsOf(pc.known) + ViewsOf(Added(pc.members, Ids(pc.known)))
    ensures AllShown(w.log + [call], pc.g, Added(pc.members, Ids(pc.known)))
  {
    hide Added, Ids;
    var added := Added(pc.members, Ids(pc.known));
    var log := w.log + [call];
    forall r | r in added ensures Shown(log, pc.g, r.id) {
      var i :| 0 <= i < |added| && added[i] == r;
      assert call.payload[|pc.known| + i].id == r.id && call.payload[|pc.known| + i] in call.payload;
      assert log[|w.log|] == call;
      assert r.id in PayloadIds(log[|w.log|]);
    }
  }

  lemma MoverKeepsPcInv(s: System, m: Move, id: nat)
    requires Enabled(s, m) && SysInv(s) && id in Next(s, m).pcs
    requires m.Upsert? || m.Read? || m.Call? || m.StoreLead? || m.Junction? || m.Die?
    requires m.id == id
    ensures PcInv(Next(s, m).w, Next(s, m).pcs[id])
  {
    hide GroupMembers, Added, Ids, Shown;
    if m.Call? && m.accepted {
      var pc := s.pcs[id];
      var added := Added(pc.members, Ids(pc.known));
      var call := CallFor(pc.lead, pc.g, pc.eventId, pc.grouping, pc.known, added).(accepted := true);
      AcceptedCallShows(s.w, pc, call);
    }
  }

  lemma MoveKeepsSysInv(s: System, m: Move)
    requires Enabled(s, m) && SysInv(s)
    ensures SysInv(Next(s, m))
  {
    var s' := Next(s, m);
    MoveIsOnward(s, m);
    forall id | id in s'.pcs ensures PcInv(s'.w, s'.pcs[id]) {
      if id in s.pcs && s'.pcs[id] == s.pcs[id] {
        PcInvOnward(s.w, s'.w, s.pcs[id]);
      } else {
        MoverKeepsPcInv(s, m, id);
      }
    }
    hide GroupMembers, Added, Shown, PcInv;
    forall p | p in s'.w.junction ensures Shown(s'.w.log, p.0, p.1) && HasLead(s'.w, p.0) {
      if p in s.w.junction {
        ShownOnward(s.w.log, s'.w.log, p.0, p.1);
      } else {
        JunctionedWasLinked(s, m, p);
      }
    }
  }

  lemma JunctionedWasLinked(s: System, m: Move, p: (GroupId, Uuid))
    requires Enabled(s, m) && SysInv(s) && p in Next(s, m).w.junction && p !in s.w.junction
    ensures Shown(Next(s, m).w.log, p.0, p.1) && HasLead(Next(s, m).w, p.0)
  {
    hide Shown, GroupMembers, Added;
    var pc := s.pcs[m.id];
    assert PcInv(s.w, pc);
    var r :| r in pc.added && r.id == p.1;
  }

  /**
   CONCURRENT SAFETY. However many walkers interleave, on however many hosts, dying where
   they may: a junctioned registration was named in a call the sink accepted for its
   group, and the group has a lead.
   */
  lemma {:induction false} SinkBeforeJunctionConcurrently(states: seq<System>, moves: seq<Move>, i: nat)
    requires IsRun(states, moves) && i < |states|
    ensures SysInv(states[i])
    ensures forall p :: p in states[i].w.junction ==> Shown(states[i].w.log, p.0, p.1) && HasLead(states[i].w, p.0)
  {
    if i > 0 {
      SinkBeforeJunctionConcurrently(states, moves, i - 1);
      MoveKeepsSysInv(states[i - 1], moves[i - 1]);
      hide Next, Enabled, SysInv;
    }
  }

  // ── what interleaving does cost ──

  const ORDER: Uuid := 7
  const SHARED := GroupId(1, UuidText(ORDER))

  function Buyer(id: Uuid, eventId: Uuid): Registration {
    Registration(id, eventId, Open, true, Some(ORDER), None, Contact(None, None, None, None, None), None, None, {})
  }

  /** Two walkers, each alone on its event, with one order across both events. */
  function TwoWalkers(): (moves: seq<Move>) {
    [ Upsert(0, SHARED, 100, PER_ORDER, [Buyer(10, 100)]), Upsert(1, SHARED, 200, PER_ORDER, [Buyer(20, 200)]),
      Read(0), Read(1), Call(0, true, 900), Call(1, true, 901), StoreLead(0), StoreLead(1), Junction(0), Junction(1) ]
  }

  function RunFrom(s: System, moves: seq<Move>, i: nat): (r: Option<System>)
    requires i <= |moves|
    decreases |moves| - i
  {
    if i == |moves| then Some(s)
    else if !Enabled(s, moves[i]) then None
    else RunFrom(Next(s, moves[i]), moves, i + 1)
  }

  const EMPTY_ORDER := World([Buyer(10, 100), Buyer(20, 200)], [], [], map[], {}, [], 0, 0, 0, 0, EMPTY_SUMMARY)

  function CallOf(lead: Option<Uuid>, r: Registration): (c: SinkCall) {
    SinkCall(lead, SHARED, r.eventId, PER_ORDER, [ViewOf(r)], true)
  }

  const NEW_ORDER := map[SHARED := Provenance(100, PER_ORDER, None)]

  /** Both read an empty group with no lead, so both will create. */
  const BOTH_READ := System(EMPTY_ORDER.(groups := NEW_ORDER),
                            map[0 := MembersRead(SHARED, 100, PER_ORDER, [Buyer(10, 100)], None, []),
                                1 := MembersRead(SHARED, 200, PER_ORDER, [Buyer(20, 200)], None, [])])

  const TWO_CREATES := [CallOf(None, Buyer(10, 100)), CallOf(None, Buyer(20, 200))]

  const BOTH_CREATED := System(EMPTY_ORDER.(groups := NEW_ORDER, log := TWO_CREATES),
                               map[0 := Minted(SHARED, [Buyer(10, 100)], 900),
                                   1 := Minted(SHARED, [Buyer(20, 200)], 901)])

  lemma TheyBothRead()
    ensures RunFrom(System(EMPTY_ORDER, map[]), TwoWalkers(), 0) == RunFrom(BOTH_READ, TwoWalkers(), 4)
  {
    hide RunFrom, UuidText;
    NobodyYet(EMPTY_ORDER.registrations, SHARED);
    var s1 := Step(System(EMPTY_ORDER, map[]), TwoWalkers(), 0);
    var s2 := Step(s1, TwoWalkers(), 1);
    var s3 := Step(s2, TwoWalkers(), 2);
    var s4 := Step(s3, TwoWalkers(), 3);
    assert s4 == BOTH_READ;
  }

  lemma CallCreates(s: System, id: nat, r: Registration, minted: Uuid)
    requires At(s, id) == MembersRead(SHARED, r.eventId, PER_ORDER, [r], None, [])
    ensures Next(s, Call(id, true, minted))
         == System(s.w.(log := s.w.log + [CallOf(None, r)]), s.pcs[id := Minted(SHARED, [r], minted)])
  {
    hide Added, ViewsOf, UuidText;
    AddedAlone(r);
    PayloadAlone(r);
  }

  lemma TheyBothCreate()
    ensures RunFrom(BOTH_READ, TwoWalkers(), 4) == RunFrom(BOTH_CREATED, TwoWalkers(), 6)
  {
    hide RunFrom, UuidText, Next, CallOf;
    CallCreates(BOTH_READ, 0, Buyer(10, 100), 900);
    var s5 := Step(BOTH_READ, TwoWalkers(), 4);
    CallCreates(s5, 1, Buyer(20, 200), 901);
    var s6 := Step(s5, TwoWalkers(), 5);
    assert s6.w.log == BOTH_CREATED.w.log;
    assert s6 == BOTH_CREATED;
  }

  const BOTH_DONE := EMPTY_ORDER.(groups := map[SHARED := Provenance(100, PER_ORDER, Some(901))],
                                  log := TWO_CREATES, junction := {(SHARED, 10), (SHARED, 20)})

  lemma TheyBothFinish() returns (end: System)
    ensures RunFrom(BOTH_CREATED, TwoWalkers(), 6) == Some(end) && end.w == BOTH_DONE
  {
    hide RunFrom, UuidText, CallOf;
    var a, b := Buyer(10, 100), Buyer(20, 200);
    var s7 := Step(BOTH_CREATED, TwoWalkers(), 6);
    var s8 := Step(s7, TwoWalkers(), 7);
    var s9 := Step(s8, TwoWalkers(), 8);
    assert Ids([a]) == {10} && Ids([b]) == {20};
    end := Step(s9, TwoWalkers(), 9);
    RunFromEnds(end, TwoWalkers());
  }

  /** TWO LEADS FOR ONE ORDER, without a fault or a death: two walkers of different events upsert the
      shared group before either has stored a lead; and the last payload accepted misses a member. */
  lemma SharedOrderCreatesTwice()
    ensures var end := RunFrom(System(EMPTY_ORDER, map[]), TwoWalkers(), 0);
            && end.Some?
            && Creates(end.value.w.log, SHARED) == 2
            && end.value.w.junction == {(SHARED, 10), (SHARED, 20)}
            && LastAccepted(end.value.w.log, SHARED) == {20}
            && SlotOf(100, Buyer(10, 100)).key == SlotOf(200, Buyer(20, 200)).key == SHARED.key
  {
    hide RunFrom, UuidText, Creates, Next, Enabled;
    TheyBothRead();
    TheyBothCreate();
    var end := TheyBothFinish();
    var a, b := CallOf(None, Buyer(10, 100)), CallOf(None, Buyer(20, 200));
    assert TWO_CREATES == [] + [a] + [b];
    CreatesOfAppend([] + [a], b, SHARED);
    CreatesOfAppend([], a, SHARED);
    assert Creates([], SHARED) == 0 by { NoCreates(SHARED); }
    assert PayloadIds(b) == {20} by { assert b.payload == [ViewOf(Buyer(20, 200))]; }
  }

  lemma NoCreates(g: GroupId)
    ensures Creates([], g) == 0
  {
  }

  lemma {:induction false} NobodyYet(rows: seq<Registration>, g: GroupId)
    ensures MembersIn(rows, {}, g) == []
  {
    if rows != [] { NobodyYet(rows[1..], g); }
  }

  lemma AddedAlone(r: Registration)
    ensures Added([r], Ids([])) == [r]
  {
    assert [r][..0] == [];
  }

  lemma PayloadAlone(r: Registration)
    ensures CallFor(None, SHARED, r.eventId, PER_ORDER, [], [r]).(accepted := true) == CallOf(None, r)
  {
    assert ViewsOf([]) + ViewsOf([r]) == [ViewOf(r)];
  }

  lemma RunFromEnds(s: System, moves: seq<Move>)
    ensures RunFrom(s, moves, |moves|) == Some(s)
  {
  }

  lemma Step(s: System, moves: seq<Move>, i: nat) returns (s': System)
    requires i < |moves| && Enabled(s, moves[i])
    ensures s' == Next(s, moves[i])
    ensures RunFrom(s, moves, i) == RunFrom(s', moves, i + 1)
  {
    s' := Next(s, moves[i]);
  }
}
