/** What every commit keeps: the sink comes before the junction, whatever the host replies. */
module LeadInvariant {
  import opened Wrappers
  import opened Text
  import opened LeadModel
  import opened LeadGrouping
  import opened LeadWalk

  function Pairs(g: GroupId, ids: set<Uuid>): set<(GroupId, Uuid)> {
    set x | x in ids :: (g, x)
  }

  /** The ids a commit of `group` may add: its members not yet junctioned to it. */
  function AddedTo(w: World, g: GroupId, members: seq<Registration>): (s: seq<Registration>) {
    Added(members, Ids(GroupMembers(w, g)))
  }

  ghost predicate SameTables(w: World, w': World) {
    w'.registrations == w.registrations && w'.rules == w.rules && w'.requests == w.requests
  }

  /** Rows other than `g` untouched; `g` keeps its event, grouping and any lead it has. */
  ghost predicate OnlyGroup(w: World, w': World, g: GroupId) {
    && (forall k :: k != g ==> (k in w'.groups <==> k in w.groups))
    && (forall k :: k != g && k in w.groups ==> w'.groups[k] == w.groups[k])
    && (g in w.groups ==>
          && g in w'.groups
          && w'.groups[g].eventId == w.groups[g].eventId
          && w'.groups[g].grouping == w.groups[g].grouping
          && (w.groups[g].lead.Some? ==> w'.groups[g].lead == w.groups[g].lead))
  }

  /** The one thing a commit may append to the log: a call with the full membership. */
  ghost predicate AtMostOneCall(w: World, w': World, g: GroupId, members: seq<Registration>) {
    || w'.log == w.log
    || (&& |w'.log| == |w.log| + 1
        && w'.log[..|w.log|] == w.log
        && var c := w'.log[|w.log|];
           && c.group == g
           && c.payload == ViewsOf(GroupMembers(w, g)) + ViewsOf(AddedTo(w, g, members))
           && (c.update == None <==> !(g in w.groups && w.groups[g].lead.Some?)))
  }

  lemma UpsertTables(w: World, g: GroupId, eventId: Uuid, grouping: string, o: Replies)
    ensures var w' := UpsertProvenance(w, g, eventId, grouping, o);
            && SameTables(w, w') && OnlyGroup(w, w', g)
            && (g !in w.groups && g in w'.groups ==> w'.groups[g] == Provenance(eventId, grouping, None))
            && (!o(w.clock).Fault? ==> g in w'.groups)
  {
  }

  lemma SinkStepTables(w: World, g: GroupId, call: SinkCall, added: seq<Registration>, o: Replies)
    requires g in w.groups
    ensures var (w', v) := CreateLeadStep(w, g, call, added, o);
            && SameTables(w, w')
            && w'.groups.Keys == w.groups.Keys
            && (forall k :: k in w.groups ==>
                  w'.groups[k] == w.groups[k] || (k == g && w'.groups[k] == w.groups[k].(lead := w'.groups[k].lead)))
            && (v == Drained ==> w'.groups[g].lead.Some?)
    ensures var (w', v) := UpdateLeadStep(w, g, call, added, o);
            SameTables(w, w') && w'.groups == w.groups
  {
    hide Ids;
  }

  lemma CommitGroupTables(w: World, ruleId: Uuid, eventId: Uuid, group: Group, o: Replies)
    ensures var g := GroupId(ruleId, group.slot.key);
            var (w', v) := CommitGroup(w, ruleId, eventId, group, o);
            && SameTables(w, w')
            && OnlyGroup(w, w', g)
            && (v == Drained ==> g in w'.groups && w'.groups[g].lead.Some?)
            && (g !in w.groups && g in w'.groups ==>
                  w'.groups[g].eventId == eventId && w'.groups[g].grouping == group.slot.grouping)
  {
    hide GroupMembers, Added, Ids, CallFor, UpsertProvenance, CreateLeadStep, UpdateLeadStep;
    var g := GroupId(ruleId, group.slot.key);
    UpsertTables(w, g, eventId, group.slot.grouping, o);
    var up := UpsertProvenance(w, g, eventId, group.slot.grouping, o);
    if !o(w.clock).Fault? && !o(up.clock).Fault? {
      var read := Tick(up, o);
      var known := GroupMembers(read, g);
      var added := Added(group.members, Ids(known));
      SinkStepTables(read, g, CallFor(up.groups[g].lead, g, eventId, group.slot.grouping, known, added), added, o);
    }
  }

  /** All of `ids` junctioned or none; junctioned only behind an accepted call and a lead. */
  ghost predicate WritesBehindSink(w: World, w': World, v: Verdict, g: GroupId, ids: set<Uuid>) {
    var full := w.junction + Pairs(g, ids);
    && (w'.junction == w.junction || w'.junction == full)
    && (v == Drained ==> w'.junction == full)
    && (w'.junction != w.junction ==>
          && g in w'.groups && w'.groups[g].lead.Some?
          && |w'.log| == |w.log| + 1 && w'.log[|w.log|].accepted)
  }

  lemma SinkStepJunction(w: World, g: GroupId, call: SinkCall, added: seq<Registration>, o: Replies)
    requires g in w.groups
    ensures var (w', v) := CreateLeadStep(w, g, call, added, o); WritesBehindSink(w, w', v, g, Ids(added))
    ensures w.groups[g].lead.Some? ==>
              var (w', v) := UpdateLeadStep(w, g, call, added, o); WritesBehindSink(w, w', v, g, Ids(added))
  {
    hide Ids;
  }

  lemma CommitGroupJunction(w: World, ruleId: Uuid, eventId: Uuid, group: Group, o: Replies)
    ensures var g := GroupId(ruleId, group.slot.key);
            var (w', v) := CommitGroup(w, ruleId, eventId, group, o);
            WritesBehindSink(w, w', v, g, Ids(AddedTo(w, g, group.members)))
  {
    hide MembersIn, Added, Ids, ViewsOf, Pairs, CreateLeadStep, UpdateLeadStep;
    var g := GroupId(ruleId, group.slot.key);
    var up := UpsertProvenance(w, g, eventId, group.slot.grouping, o);
    if !o(w.clock).Fault? && !o(up.clock).Fault? {
      var read := Tick(up, o);
      var known := GroupMembers(read, g);
      var added := Added(group.members, Ids(known));
      SinkStepJunction(read, g, CallFor(up.groups[g].lead, g, eventId, group.slot.grouping, known, added), added, o);
    }
  }

  lemma CommitGroupLog(w: World, ruleId: Uuid, eventId: Uuid, group: Group, o: Replies)
    ensures var g := GroupId(ruleId, group.slot.key);
            var (w', v) := CommitGroup(w, ruleId, eventId, group, o);
            AtMostOneCall(w, w', g, group.members)
  {
    hide MembersIn, Added, Ids, ViewsOf;
  }

  /** A commit that does not drain used up exactly one fault or refusal; one that does, none. */
  lemma CommitGroupBad(w: World, ruleId: Uuid, eventId: Uuid, group: Group, o: Replies)
    ensures var (w', v) := CommitGroup(w, ruleId, eventId, group, o);
            && w'.faults == w.faults + (if v == Failed then 1 else 0)
            && w'.refusals == w.refusals + (if v.Parked? then 1 else 0)
  {
    hide GroupMembers, Added, Ids, ViewsOf, CallFor;
  }

  // ── memberships ──

  lemma {:induction false} MembersInFacts(rows: seq<Registration>, junction: set<(GroupId, Uuid)>, g: GroupId)
    ensures forall r :: r in MembersIn(rows, junction, g) <==> r in rows && (g, r.id) in junction
    ensures AscendingIds(rows) ==> AscendingIds(MembersIn(rows, junction, g))
  {
    if rows != [] {
      var tail := rows[1..];
      assert rows == [rows[0]] + tail;
      MembersInFacts(tail, junction, g);
      var m := MembersIn(tail, junction, g);
      if AscendingIds(rows) {
        assert AscendingIds(tail);
        forall i | 0 <= i < |m| ensures rows[0].id < m[i].id {
          assert m[i] in tail;
          var j :| 0 <= j < |tail| && tail[j] == m[i];
          assert rows[j + 1] == m[i];
        }
      }
    }
  }

  lemma {:induction false} AddedFacts(members: seq<Registration>, known: set<Uuid>)
    ensures forall r :: r in Added(members, known) <==> r in members && r.id !in known
    ensures Distinct(members) ==> Distinct(Added(members, known))
  {
    if members != [] {
      var rest, last := members[..|members| - 1], members[|members| - 1];
      assert members == rest + [last];
      AddedFacts(rest, known);
      var a := Added(rest, known);
      assert forall i :: 0 <= i < |a| ==> a[i] in rest;
    }
  }

  /** With every junctioned id on a row, the membership read is the junction's own. */
  lemma GroupMembersIds(w: World, g: GroupId)
    requires forall p :: p in w.junction ==> p.1 in Ids(w.registrations)
    ensures forall x :: x in Ids(GroupMembers(w, g)) <==> (g, x) in w.junction
  {
    MembersInFacts(w.registrations, w.junction, g);
    forall x | (g, x) in w.junction ensures x in Ids(GroupMembers(w, g)) {
      var r :| r in w.registrations && r.id == x;
      assert r in GroupMembers(w, g);
    }
  }

  ghost predicate NoRepeats(payload: seq<View>) {
    forall i, j :: 0 <= i < j < |payload| ==> payload[i].id != payload[j].id
  }

  function ViewIds(views: seq<View>): (s: set<Uuid>) {
    set v | v in views :: v.id
  }

  lemma ViewsOfIds(rows: seq<Registration>)
    ensures ViewIds(ViewsOf(rows)) == Ids(rows)
  {
    var views := ViewsOf(rows);
    forall x | x in Ids(rows) ensures x in ViewIds(views) {
      var r :| r in rows && r.id == x;
      var i :| 0 <= i < |rows| && rows[i] == r;
      assert views[i] in views && views[i].id == x;
    }
    forall x | x in ViewIds(views) ensures x in Ids(rows) {
      var v :| v in views && v.id == x;
      var i :| 0 <= i < |views| && views[i] == v;
      assert rows[i] in rows;
    }
  }

  lemma DisjointViewsNoRepeats(a: seq<Registration>, b: seq<Registration>)
    requires Distinct(a) && Distinct(b) && Ids(a) !! Ids(b)
    ensures NoRepeats(ViewsOf(a) + ViewsOf(b))
  {
    var v := ViewsOf(a) + ViewsOf(b);
    forall i, j | 0 <= i < j < |v| ensures v[i].id != v[j].id {
      if i < |a| <= j {
        assert a[i] in a && b[j - |a|] in b;
        assert a[i].id in Ids(a) && b[j - |a|].id in Ids(b);
      }
    }
  }

  /** The payload is the membership with the newcomers after it, nobody twice. */
  lemma PayloadIsFull(w: World, g: GroupId, members: seq<Registration>, c: SinkCall)
    requires c.payload == ViewsOf(GroupMembers(w, g)) + ViewsOf(AddedTo(w, g, members))
    requires AscendingIds(w.registrations) && Distinct(members)
    ensures NoRepeats(c.payload)
    ensures PayloadIds(c) == Ids(GroupMembers(w, g)) + Ids(AddedTo(w, g, members))
  {
    var known, added := GroupMembers(w, g), AddedTo(w, g, members);
    MembersInFacts(w.registrations, w.junction, g);
    AddedFacts(members, Ids(known));
    DisjointViewsNoRepeats(known, added);
    ViewsOfIds(known);
    ViewsOfIds(added);
    assert PayloadIds(c) == ViewIds(ViewsOf(known)) + ViewIds(ViewsOf(added));
  }

  /** EVERY SINK CALL IS FULL. Whatever the host replies, a commit makes at most one call; it shows the
      group's junctioned members and after them the newcomers, nobody twice. */
  lemma CommitCallIsFull(w: World, ruleId: Uuid, eventId: Uuid, group: Group, o: Replies)
    requires AscendingIds(w.registrations) && Distinct(group.members)
    ensures var g := GroupId(ruleId, group.slot.key);
            var log := CommitGroup(w, ruleId, eventId, group, o).0.log;
            log == w.log
            || (&& |log| == |w.log| + 1 && log[..|w.log|] == w.log && log[|w.log|].group == g
                && log[|w.log|].payload == ViewsOf(GroupMembers(w, g)) + ViewsOf(AddedTo(w, g, group.members))
                && NoRepeats(log[|w.log|].payload)
                && PayloadIds(log[|w.log|]) == Ids(GroupMembers(w, g)) + Ids(AddedTo(w, g, group.members)))
  {
    var g := GroupId(ruleId, group.slot.key);
    var log := CommitGroup(w, ruleId, eventId, group, o).0.log;
    CommitGroupLog(w, ruleId, eventId, group, o);
    hide CommitGroup, GroupMembers, AddedTo, NoRepeats, PayloadIds, Ids;
    if log != w.log { PayloadIsFull(w, g, group.members, log[|w.log|]); }
  }

  // ── the invariants ──

  /** Junctioned rows exist, carry a lead, were in the group's last accepted payload, and
      sit in one group per rule. */
  ghost predicate JunctionInv(w: World) {
    && AscendingIds(w.registrations)
    && (forall p :: p in w.junction ==> p.1 in Ids(w.registrations))
    && (forall p :: p in w.junction ==> p.0 in w.groups && w.groups[p.0].lead.Some?)
    && (forall p :: p in w.junction ==> p.1 in LastAccepted(w.log, p.0))
    && (forall p, q :: p in w.junction && q in w.junction && p.0.ruleId == q.0.ruleId && p.1 == q.1 ==> p == q)
  }

  ghost predicate PayloadInv(w: World) {
    forall i :: 0 <= i < |w.log| ==> NoRepeats(w.log[i].payload)
  }

  /** One accepted create per group with a lead, and one more at most for each fault met. */
  ghost predicate CreateInv(w: World) {
    forall g :: LeadCount(w, g) <= Creates(w.log, g) <= LeadCount(w, g) + w.faults
  }

  ghost predicate Inv(w: World) {
    JunctionInv(w) && PayloadInv(w) && CreateInv(w)
  }

  /** The members handed to a commit: rows of the table the rule has not grouped yet. */
  ghost predicate Walkable(w: World, ruleId: Uuid, members: seq<Registration>) {
    && Distinct(members)
    && forall r :: r in members ==> r in w.registrations && r.id !in JoinedIds(w.junction, ruleId)
  }

  lemma CommitGroupKeepsJunctionInv(w: World, ruleId: Uuid, eventId: Uuid, group: Group, o: Replies)
    requires JunctionInv(w) && Walkable(w, ruleId, group.members)
    ensures JunctionInv(CommitGroup(w, ruleId, eventId, group, o).0)
  {
    hide CommitGroup, JoinedIds, LastAccepted, AtMostOneCall, MembersIn, Added;
    var g := GroupId(ruleId, group.slot.key);
    var added := AddedTo(w, g, group.members);
    var w' := CommitGroup(w, ruleId, eventId, group, o).0;
    CommitGroupTables(w, ruleId, eventId, group, o);
    CommitGroupJunction(w, ruleId, eventId, group, o);
    CommitGroupLog(w, ruleId, eventId, group, o);
    AddedFacts(group.members, Ids(GroupMembers(w, g)));
    JunctionStaysInPayload(w, w', g, group.members);
    JunctionStaysUnique(w, w', ruleId, g, added);
    JunctionStaysLinked(w, w', g, added);
    hide AddedTo, GroupMembers, OnlyGroup, Ids, Pairs;
  }

  lemma JunctionStaysLinked(w: World, w': World, g: GroupId, added: seq<Registration>)
    requires JunctionInv(w) && OnlyGroup(w, w', g) && w'.registrations == w.registrations
    requires forall r :: r in added ==> r in w.registrations
    requires w'.junction == w.junction || w'.junction == w.junction + Pairs(g, Ids(added))
    requires w'.junction != w.junction ==> g in w'.groups && w'.groups[g].lead.Some?
    ensures forall p :: p in w'.junction ==> p.1 in Ids(w'.registrations)
    ensures forall p :: p in w'.junction ==> p.0 in w'.groups && w'.groups[p.0].lead.Some?
  {
    hide LastAccepted;
  }

  lemma JunctionStaysInPayload(w: World, w': World, g: GroupId, members: seq<Registration>)
    requires JunctionInv(w) && Distinct(members)
    requires AtMostOneCall(w, w', g, members)
    requires w'.junction == w.junction || w'.junction == w.junction + Pairs(g, Ids(AddedTo(w, g, members)))
    requires w'.junction != w.junction ==> |w'.log| == |w.log| + 1 && w'.log[|w.log|].accepted
    ensures forall p :: p in w'.junction ==> p.1 in LastAccepted(w'.log, p.0)
  {
    GroupMembersIds(w, g);
    if |w'.log| > |w.log| {
      var c := w'.log[|w.log|];
      PayloadIsFull(w, g, members, c);
      assert w'.log[..|w'.log| - 1] == w.log;
      hide AddedTo, GroupMembers, Ids, PayloadIds;
      forall p | p in w'.junction ensures p.1 in LastAccepted(w'.log, p.0) {
        if p.0 == g && c.accepted {
          assert p.1 in PayloadIds(c);
        } else {
          assert p in w.junction;
        }
      }
    }
  }

  lemma JunctionStaysUnique(w: World, w': World, ruleId: Uuid, g: GroupId, added: seq<Registration>)
    requires JunctionInv(w) && g.ruleId == ruleId
    requires forall r :: r in added ==> r.id !in JoinedIds(w.junction, ruleId)
    requires w'.junction == w.junction || w'.junction == w.junction + Pairs(g, Ids(added))
    ensures forall p, q :: p in w'.junction && q in w'.junction && p.0.ruleId == q.0.ruleId && p.1 == q.1 ==> p == q
  {
    forall p, q | p in w'.junction && q in w'.junction && p.0.ruleId == q.0.ruleId && p.1 == q.1
      ensures p == q
    {
      if p in w.junction && q !in w.junction {
        OldAndNewDiffer(w, ruleId, g, added, p, q);
      } else if p !in w.junction && q in w.junction {
        OldAndNewDiffer(w, ruleId, g, added, q, p);
      }
    }
  }

  lemma OldAndNewDiffer(w: World, ruleId: Uuid, g: GroupId, added: seq<Registration>, old': (GroupId, Uuid),
                        new': (GroupId, Uuid))
    requires g.ruleId == ruleId && old' in w.junction && new' in Pairs(g, Ids(added))
    requires forall r :: r in added ==> r.id !in JoinedIds(w.junction, ruleId)
    ensures old'.0.ruleId != new'.0.ruleId || old'.1 != new'.1
  {
    if old'.0.ruleId == ruleId {
      assert old'.1 in JoinedIds(w.junction, ruleId);
    }
  }

  lemma CommitGroupKeepsPayloadInv(w: World, ruleId: Uuid, eventId: Uuid, group: Group, o: Replies)
    requires JunctionInv(w) && Walkable(w, ruleId, group.members) && PayloadInv(w)
    ensures PayloadInv(CommitGroup(w, ruleId, eventId, group, o).0)
  {
    var g := GroupId(ruleId, group.slot.key);
    var w' := CommitGroup(w, ruleId, eventId, group, o).0;
    CommitGroupLog(w, ruleId, eventId, group, o);
    hide CommitGroup, AddedTo, GroupMembers;
    if |w'.log| > |w.log| {
      PayloadIsFull(w, g, group.members, w'.log[|w.log|]);
      assert forall i :: 0 <= i < |w.log| ==> w'.log[i] == w'.log[..|w.log|][i];
    }
  }

  lemma CommitGroupKeepsCreateInv(w: World, ruleId: Uuid, eventId: Uuid, group: Group, o: Replies)
    requires CreateInv(w)
    ensures CreateInv(CommitGroup(w, ruleId, eventId, group, o).0)
  {
    var w' := CommitGroup(w, ruleId, eventId, group, o).0;
    forall k ensures LeadCount(w', k) <= Creates(w'.log, k) <= LeadCount(w', k) + w'.faults {
      CommitGroupCreates(w, ruleId, eventId, group, o, k);
      CommitGroupBad(w, ruleId, eventId, group, o);
      hide CommitGroup, LeadCount, Creates;
    }
  }

  function Unlinked(w: World, k: GroupId): int {
    Creates(w.log, k) - LeadCount(w, k)
  }

  lemma CreatesOfAppend(log: seq<SinkCall>, c: SinkCall, k: GroupId)
    ensures Creates(log + [c], k)
         == Creates(log, k) + if c.group == k && c.accepted && c.update == None then 1 else 0
  {
    assert (log + [c])[..|log|] == log;
  }

  lemma CreateStepCreates(w: World, g: GroupId, call: SinkCall, added: seq<Registration>, o: Replies, k: GroupId)
    requires g in w.groups && call.group == g && call.update == None && w.groups[g].lead == None
    ensures var w' := CreateLeadStep(w, g, call, added, o).0;
            Unlinked(w', k) == Unlinked(w, k) || (Unlinked(w', k) == Unlinked(w, k) + 1 && w'.faults == w.faults + 1)
  {
    hide Ids, Creates;
    CreatesOfAppend(w.log, CallSink(w, call, o).log[|w.log|], k);
  }

  lemma UpdateStepCreates(w: World, g: GroupId, call: SinkCall, added: seq<Registration>, o: Replies, k: GroupId)
    requires call.update != None
    ensures Unlinked(UpdateLeadStep(w, g, call, added, o).0, k) == Unlinked(w, k)
  {
    hide Ids, Creates;
    CreatesOfAppend(w.log, CallSink(w, call, o).log[|w.log|], k);
  }

  /** A lead id is recorded for every accepted create, unless a fault came between the two. */
  lemma CommitGroupCreates(w: World, ruleId: Uuid, eventId: Uuid, group: Group, o: Replies, k: GroupId)
    ensures var w' := CommitGroup(w, ruleId, eventId, group, o).0;
            || Unlinked(w', k) == Unlinked(w, k)
            || (Unlinked(w', k) == Unlinked(w, k) + 1 && w'.faults == w.faults + 1)
  {
    hide GroupMembers, Added, Ids, CreateLeadStep, UpdateLeadStep, Creates;
    var g := GroupId(ruleId, group.slot.key);
    var up := UpsertProvenance(w, g, eventId, group.slot.grouping, o);
    if !o(w.clock).Fault? && !o(up.clock).Fault? {
      var read := Tick(up, o);
      var known := GroupMembers(read, g);
      var added := Added(group.members, Ids(known));
      var call := CallFor(up.groups[g].lead, g, eventId, group.slot.grouping, known, added);
      if up.groups[g].lead.Some? { UpdateStepCreates(read, g, call, added, o, k); }
      else { CreateStepCreates(read, g, call, added, o, k); }
    }
  }
}
