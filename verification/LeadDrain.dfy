/** A batch's groups committed in map order, and the fetch that shrinks with every batch. */
module LeadDrain {
  import opened Text
  import opened LeadModel
  import opened LeadGrouping
  import opened LeadWalk
  import opened LeadInvariant

  /** Where a rule's walk of an event puts a registration. */
  function HomeOf(ruleId: Uuid, eventId: Uuid, r: Registration): (GroupId, Uuid) {
    (GroupId(ruleId, SlotOf(eventId, r).key), r.id)
  }

  function Homes(ruleId: Uuid, eventId: Uuid, rows: seq<Registration>): (s: set<(GroupId, Uuid)>)
    ensures s == {} <==> rows == []
  {
    var s := set r | r in rows :: HomeOf(ruleId, eventId, r);
    assert rows != [] ==> HomeOf(ruleId, eventId, rows[0]) in s;
    s
  }

  /** The junction rows a list of groups stands for. */
  function PairsOf(ruleId: Uuid, groups: seq<Group>): set<(GroupId, Uuid)> {
    if groups == [] then {}
    else Pairs(GroupId(ruleId, groups[0].slot.key), Ids(groups[0].members)) + PairsOf(ruleId, groups[1..])
  }

  ghost predicate Separate(groups: seq<Group>) {
    forall i, j :: 0 <= i < j < |groups| ==> Ids(groups[i].members) !! Ids(groups[j].members)
  }

  // ── the groups of a batch ──

  lemma GroupByFacts(eventId: Uuid, batch: seq<Registration>, i: nat)
    requires i < |GroupBy(eventId, batch)|
    ensures var g := GroupBy(eventId, batch)[i];
            && g.members == Select(eventId, batch, g.slot)
            && (forall m :: m in g.members <==> m in batch && SlotOf(eventId, m) == g.slot)
            && (Distinct(batch) ==> Distinct(g.members))
  {
    GroupByPartitions(eventId, batch);
    var groups := GroupBy(eventId, batch);
    MembersAtIndex(groups, i);
    GroupBySelects(eventId, batch, groups[i].slot);
    SelectIsFilter(eventId, batch, groups[i].slot);
  }

  lemma SelectionsDisjoint(batch: seq<Registration>, a: seq<Registration>, b: seq<Registration>)
    requires Distinct(batch)
    requires forall m :: m in a ==> m in batch
    requires forall m :: m in b ==> m in batch
    requires forall m :: m in a ==> m !in b
    ensures Ids(a) !! Ids(b)
  {
  }

  lemma GroupBySeparates(eventId: Uuid, batch: seq<Registration>)
    requires Distinct(batch)
    ensures Separate(GroupBy(eventId, batch))
  {
    var groups := GroupBy(eventId, batch);
    GroupByPartitions(eventId, batch);
    hide SlotOf, GroupBy;
    forall i, j | 0 <= i < j < |groups| ensures Ids(groups[i].members) !! Ids(groups[j].members) {
      GroupByFacts(eventId, batch, i);
      GroupByFacts(eventId, batch, j);
      SlotLessIrreflexive(groups[i].slot);
      hide SlotLess;
      SelectionsDisjoint(batch, groups[i].members, groups[j].members);
    }
  }

  lemma {:induction false} PairsOfMembership(ruleId: Uuid, groups: seq<Group>)
    ensures forall p :: p in PairsOf(ruleId, groups) <==>
      exists i :: 0 <= i < |groups| && p.0 == GroupId(ruleId, groups[i].slot.key) && p.1 in Ids(groups[i].members)
  {
    if groups != [] {
      PairsOfMembership(ruleId, groups[1..]);
      forall p | p in PairsOf(ruleId, groups)
        ensures exists i ::
                  0 <= i < |groups| && p.0 == GroupId(ruleId, groups[i].slot.key) && p.1 in Ids(groups[i].members)
      {
        if p in PairsOf(ruleId, groups[1..]) {
          var j :| 0 <= j < |groups[1..]| && p.0 == GroupId(ruleId, groups[1..][j].slot.key)
              && p.1 in Ids(groups[1..][j].members);
          assert groups[1..][j] == groups[j + 1];
        }
      }
      forall i, p: (GroupId, Uuid) | 0 <= i < |groups| && p.0 == GroupId(ruleId, groups[i].slot.key)
          && p.1 in Ids(groups[i].members)
        ensures p in PairsOf(ruleId, groups)
      {
        if i > 0 { assert groups[i] == groups[1..][i - 1]; }
        assert p == (p.0, p.1);
      }
    }
  }

  /** Grouping a batch sends every row to its home and nothing anywhere else. */
  lemma GroupByHomes(ruleId: Uuid, eventId: Uuid, batch: seq<Registration>)
    ensures PairsOf(ruleId, GroupBy(eventId, batch)) == Homes(ruleId, eventId, batch)
  {
    var groups := GroupBy(eventId, batch);
    PairsOfMembership(ruleId, groups);
    forall p | p in PairsOf(ruleId, groups) ensures p in Homes(ruleId, eventId, batch) {
      var i :| 0 <= i < |groups| && p.0 == GroupId(ruleId, groups[i].slot.key) && p.1 in Ids(groups[i].members);
      GroupByFacts(eventId, batch, i);
      hide SlotOf, GroupBy;
      var m :| m in groups[i].members && m.id == p.1;
      assert p == HomeOf(ruleId, eventId, m);
    }
    forall p | p in Homes(ruleId, eventId, batch) ensures p in PairsOf(ruleId, groups) {
      hide SlotOf, GroupBy;
      var r :| r in batch && p == HomeOf(ruleId, eventId, r);
      GroupByPartitions(eventId, batch);
      assert SlotOf(eventId, r) in Slots(groups);
      var i :| 0 <= i < |groups| && groups[i].slot == SlotOf(eventId, r);
      GroupByFacts(eventId, batch, i);
      assert r in groups[i].members;
    }
  }

  // ── committing a list of groups ──

  lemma JoinedIdsGrow(a: set<(GroupId, Uuid)>, b: set<(GroupId, Uuid)>, ruleId: Uuid)
    ensures JoinedIds(a + b, ruleId) == JoinedIds(a, ruleId) + JoinedIds(b, ruleId)
  {
  }

  lemma JoinedIdsOfPairs(g: GroupId, ids: set<Uuid>, ruleId: Uuid)
    ensures JoinedIds(Pairs(g, ids), ruleId) == if g.ruleId == ruleId then ids else {}
  {
    if g.ruleId == ruleId {
      forall x | x in ids ensures x in JoinedIds(Pairs(g, ids), ruleId) {
        assert (g, x) in Pairs(g, ids);
      }
    }
  }

  /** Nobody a rule has yet to group is already a member of one of its groups. */
  lemma WalkableAllAdded(w: World, g: GroupId, members: seq<Registration>)
    requires Walkable(w, g.ruleId, members)
    ensures AddedTo(w, g, members) == members
  {
    MembersInFacts(w.registrations, w.junction, g);
    var known := Ids(GroupMembers(w, g));
    forall x | x in known ensures x in JoinedIds(w.junction, g.ruleId) {
      var r :| r in GroupMembers(w, g) && r.id == x;
      assert (g, x) in w.junction;
    }
    AddedAll(members, known);
  }

  lemma {:induction false} AddedAll(members: seq<Registration>, known: set<Uuid>)
    requires forall m :: m in members ==> m.id !in known
    ensures Added(members, known) == members
  {
    if members != [] {
      var rest := members[..|members| - 1];
      AddedAll(rest, known);
      assert members == rest + [members[|members| - 1]];
    }
  }

  ghost predicate AllWalkable(w: World, ruleId: Uuid, groups: seq<Group>) {
    Separate(groups) && forall i :: 0 <= i < |groups| ==> Walkable(w, ruleId, groups[i].members)
  }

  lemma CommitLeavesRestWalkable(w: World, ruleId: Uuid, eventId: Uuid, groups: seq<Group>, o: Replies)
    requires groups != [] && AllWalkable(w, ruleId, groups)
    ensures AllWalkable(CommitGroup(w, ruleId, eventId, groups[0], o).0, ruleId, groups[1..])
  {
    var g := GroupId(ruleId, groups[0].slot.key);
    var w' := CommitGroup(w, ruleId, eventId, groups[0], o).0;
    CommitGroupTables(w, ruleId, eventId, groups[0], o);
    CommitGroupJunction(w, ruleId, eventId, groups[0], o);
    WalkableAllAdded(w, g, groups[0].members);
    JoinedIdsGrow(w.junction, Pairs(g, Ids(groups[0].members)), ruleId);
    JoinedIdsOfPairs(g, Ids(groups[0].members), ruleId);
    hide CommitGroup, JoinedIds, Pairs, AddedTo;
    forall i | 0 <= i < |groups[1..]| ensures Walkable(w', ruleId, groups[1..][i].members) {
      assert groups[1..][i] == groups[i + 1];
      assert Walkable(w, ruleId, groups[i + 1].members);
      forall r | r in groups[i + 1].members ensures r.id !in JoinedIds(w'.junction, ruleId) {
        assert r.id in Ids(groups[i + 1].members);
        assert Ids(groups[0].members) !! Ids(groups[i + 1].members);
      }
    }
  }

  lemma {:induction false} CommitGroupsKeepInv(w: World, ruleId: Uuid, eventId: Uuid, groups: seq<Group>, o: Replies)
    requires Inv(w) && AllWalkable(w, ruleId, groups)
    ensures Inv(CommitGroups(w, ruleId, eventId, groups, o).0)
    decreases |groups|
  {
    if groups != [] {
      assert Walkable(w, ruleId, groups[0].members);
      CommitGroupKeepsJunctionInv(w, ruleId, eventId, groups[0], o);
      CommitGroupKeepsPayloadInv(w, ruleId, eventId, groups[0], o);
      CommitGroupKeepsCreateInv(w, ruleId, eventId, groups[0], o);
      CommitLeavesRestWalkable(w, ruleId, eventId, groups, o);
      CommitGroupsKeepInv(CommitGroup(w, ruleId, eventId, groups[0], o).0, ruleId, eventId, groups[1..], o);
      hide CommitGroup, Inv, AllWalkable;
    }
  }

  /** How many groups of a list are committed before the walk stops. */
  function Committed(w: World, ruleId: Uuid, eventId: Uuid, groups: seq<Group>, o: Replies): (n: nat)
    ensures n <= |groups|
    decreases |groups|
  {
    if groups == [] then 0
    else
      var (w1, v) := CommitGroup(w, ruleId, eventId, groups[0], o);
      if v != Drained then 0 else 1 + Committed(w1, ruleId, eventId, groups[1..], o)
  }

  lemma PairsOfPrefix(ruleId: Uuid, groups: seq<Group>, n: nat)
    requires 0 < n <= |groups|
    ensures PairsOf(ruleId, groups[..n])
         == Pairs(GroupId(ruleId, groups[0].slot.key), Ids(groups[0].members)) + PairsOf(ruleId, groups[1..][..n - 1])
  {
    assert groups[..n][1..] == groups[1..][..n - 1];
  }

  lemma {:induction false} CommitGroupsTables(w: World, ruleId: Uuid, eventId: Uuid, groups: seq<Group>, o: Replies)
    ensures var (w', v) := CommitGroups(w, ruleId, eventId, groups, o);
            && SameTables(w, w')
            && (v == Drained <==> Committed(w, ruleId, eventId, groups, o) == |groups|)
    decreases |groups|
  {
    if groups != [] {
      CommitGroupTables(w, ruleId, eventId, groups[0], o);
      CommitGroupsTables(CommitGroup(w, ruleId, eventId, groups[0], o).0, ruleId, eventId, groups[1..], o);
      hide CommitGroup;
    }
  }

  ghost predicate JunctionGains(w: World, w': World, v: Verdict, ruleId: Uuid, groups: seq<Group>, n: nat)
    requires n <= |groups|
    requires v == Failed ==> n < |groups|
  {
    || w'.junction == w.junction + PairsOf(ruleId, groups[..n])
    || (v == Failed && w'.junction == w.junction + PairsOf(ruleId, groups[..n + 1]))
  }

  lemma JunctionGainsFirst(w: World, w': World, v: Verdict, ruleId: Uuid, eventId: Uuid, groups: seq<Group>, o: Replies)
    requires groups != [] && Walkable(w, ruleId, groups[0].members)
    requires (w', v) == CommitGroup(w, ruleId, eventId, groups[0], o)
    ensures v != Drained ==> JunctionGains(w, w', v, ruleId, groups, 0)
    ensures v == Drained ==> w'.junction == w.junction + PairsOf(ruleId, groups[..1])
  {
    WalkableAllAdded(w, GroupId(ruleId, groups[0].slot.key), groups[0].members);
    CommitGroupJunction(w, ruleId, eventId, groups[0], o);
    CommitGroupParkedWritesNothing(w, ruleId, eventId, groups[0], o);
    PairsOfPrefix(ruleId, groups, 1);
    assert PairsOf(ruleId, groups[1..][..0]) == PairsOf(ruleId, groups[..0]) == {};
    hide CommitGroup, Pairs, Ids, PairsOf;
    assert groups[..0 + 1] == groups[..1];
  }

  lemma JunctionGainsRest(w: World, w1: World, w': World, v: Verdict, ruleId: Uuid, groups: seq<Group>, n: nat)
    requires groups != [] && n <= |groups[1..]| && (v == Failed ==> n < |groups[1..]|)
    requires w1.junction == w.junction + PairsOf(ruleId, groups[..1])
    requires JunctionGains(w1, w', v, ruleId, groups[1..], n)
    ensures JunctionGains(w, w', v, ruleId, groups, n + 1)
  {
    PairsOfPrefix(ruleId, groups, 1);
    PairsOfPrefix(ruleId, groups, n + 1);
    assert PairsOf(ruleId, groups[1..][..0]) == {};
    if v == Failed { PairsOfPrefix(ruleId, groups, n + 2); }
    hide PairsOf, Pairs;
  }

  lemma NoGroupsNoGain(w: World, ruleId: Uuid, groups: seq<Group>)
    requires groups == []
    ensures JunctionGains(w, w, Drained, ruleId, groups, 0)
  {
  }

  lemma FirstIsWalkable(w: World, ruleId: Uuid, groups: seq<Group>)
    requires AllWalkable(w, ruleId, groups) && groups != []
    ensures Walkable(w, ruleId, groups[0].members)
  {
  }

  /** The junction gains exactly the groups before the one that stopped the walk; a fault
      after that group's own write may add it too. */
  lemma {:induction false} CommitGroupsJunction(w: World, ruleId: Uuid, eventId: Uuid, groups: seq<Group>, o: Replies)
    requires AllWalkable(w, ruleId, groups)
    ensures var (w', v) := CommitGroups(w, ruleId, eventId, groups, o);
            var n := Committed(w, ruleId, eventId, groups, o);
            && (v != Drained ==> n < |groups|)
            && JunctionGains(w, w', v, ruleId, groups, n)
    decreases |groups|
  {
    hide CommitGroup, JunctionGains, AllWalkable;
    CommitGroupsTables(w, ruleId, eventId, groups, o);
    if groups == [] {
      NoGroupsNoGain(w, ruleId, groups);
    } else {
      var (w1, v1) := CommitGroup(w, ruleId, eventId, groups[0], o);
      FirstIsWalkable(w, ruleId, groups);
      JunctionGainsFirst(w, w1, v1, ruleId, eventId, groups, o);
      if v1 == Drained {
        CommitLeavesRestWalkable(w, ruleId, eventId, groups, o);
        CommitGroupsJunction(w1, ruleId, eventId, groups[1..], o);
        var (w', v) := CommitGroups(w1, ruleId, eventId, groups[1..], o);
        JunctionGainsRest(w, w1, w', v, ruleId, groups, Committed(w1, ruleId, eventId, groups[1..], o));
      }
    }
  }

  lemma CommitGroupParkedWritesNothing(w: World, ruleId: Uuid, eventId: Uuid, group: Group, o: Replies)
    ensures var (w', v) := CommitGroup(w, ruleId, eventId, group, o);
            v.Parked? ==>
              && w'.junction == w.junction
              && |w'.log| == |w.log| + 1
              && w'.log[|w.log|].group == GroupId(ruleId, group.slot.key)
              && !w'.log[|w.log|].accepted
  {
    hide GroupMembers, Added, Ids;
  }

  // ── the anti-joined fetch ──

  lemma {:induction false} PendingRowsFacts(rows: seq<Registration>, joined: set<Uuid>, rule: Rule, eventId: Uuid)
    ensures forall r ::
              r in PendingRows(rows, joined, rule, eventId) <==> r in rows && PendingRow(joined, rule, eventId, r)
    ensures AscendingIds(rows) ==> AscendingIds(PendingRows(rows, joined, rule, eventId))
  {
    if rows != [] {
      hide PendingRow;
      var tail := rows[1..];
      assert rows == [rows[0]] + tail;
      PendingRowsFacts(tail, joined, rule, eventId);
      var m := PendingRows(tail, joined, rule, eventId);
      if AscendingIds(rows) {
        assert AscendingIds(tail);
        forall i | 0 <= i < |m| ensures rows[0].id < m[i].id {
          assert m[i] in tail;
          var j :| 0 <= j < |tail| && tail[j] == m[i];
          assert rows[j + 1] == m[i];
        }
      }
    }
  }

  lemma {:induction false} PendingShrinks(rows: seq<Registration>, joined: set<Uuid>, more: set<Uuid>, rule: Rule,
                                          eventId: Uuid)
    requires joined <= more
    ensures |PendingRows(rows, more, rule, eventId)| <= |PendingRows(rows, joined, rule, eventId)|
    ensures (exists r :: r in PendingRows(rows, joined, rule, eventId) && r.id in more) ==>
              |PendingRows(rows, more, rule, eventId)| < |PendingRows(rows, joined, rule, eventId)|
  {
    if rows != [] {
      hide InDomain;
      PendingShrinks(rows[1..], joined, more, rule, eventId);
    }
  }

  function Without(rows: seq<Registration>, ids: set<Uuid>): (s: seq<Registration>) {
    if rows == [] then []
    else (if rows[0].id in ids then [] else [rows[0]]) + Without(rows[1..], ids)
  }

  lemma {:induction false} PendingIsWithout(rows: seq<Registration>, joined: set<Uuid>, more: set<Uuid>, rule: Rule,
                                            eventId: Uuid)
    ensures PendingRows(rows, joined + more, rule, eventId) == Without(PendingRows(rows, joined, rule, eventId), more)
  {
    if rows != [] {
      hide InDomain;
      PendingIsWithout(rows[1..], joined, more, rule, eventId);
      var q := PendingRows(rows[1..], joined, rule, eventId);
      if PendingRow(joined, rule, eventId, rows[0]) {
        assert PendingRows(rows, joined, rule, eventId) == [rows[0]] + q;
      } else {
        assert PendingRows(rows, joined, rule, eventId) == q;
      }
    }
  }

  lemma {:induction false} WithoutSplit(a: seq<Registration>, b: seq<Registration>, ids: set<Uuid>)
    requires forall r :: r in a ==> r.id in ids
    requires forall r :: r in b ==> r.id !in ids
    ensures Without(a + b, ids) == b
    decreases |a| + |b|
  {
    if a != [] {
      assert (a + b)[1..] == a[1..] + b;
      WithoutSplit(a[1..], b, ids);
    } else if b != [] {
      assert a + b == b;
      WithoutSplit([], b[1..], ids);
      assert [] + b[1..] == b[1..];
    }
  }

  /** Grouping the first k of the fetch leaves exactly the rest of it. */
  lemma PendingAfterPrefix(rows: seq<Registration>, joined: set<Uuid>, rule: Rule, eventId: Uuid, k: nat)
    requires AscendingIds(rows) && k <= |PendingRows(rows, joined, rule, eventId)|
    ensures var p := PendingRows(rows, joined, rule, eventId);
            PendingRows(rows, joined + Ids(p[..k]), rule, eventId) == p[k..]
  {
    var p := PendingRows(rows, joined, rule, eventId);
    PendingRowsFacts(rows, joined, rule, eventId);
    PendingIsWithout(rows, joined, Ids(p[..k]), rule, eventId);
    hide PendingRows;
    forall r | r in p[k..] ensures r.id !in Ids(p[..k]) {
      var j :| k <= j < |p| && p[j] == r;
      assert forall i :: 0 <= i < k ==> p[i].id < p[j].id;
    }
    WithoutSplit(p[..k], p[k..], Ids(p[..k]));
    assert p[..k] + p[k..] == p;
  }
}
