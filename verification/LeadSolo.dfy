/** One walker undisturbed: the interleaved protocol's moves are then the commit of the serial walk. */
module LeadSolo {
  import opened Wrappers
  import opened Text
  import opened LeadModel
  import opened LeadGrouping
  import opened LeadWalk
  import opened LeadInvariant
  import opened LeadProtocol
  import C = LeadColumns
  import L = LeadLease
  import P = LeadPass
  import R = LeadRules
  import opened LeadRun

  /** A walker's moves through one group: the host accepts with a lead, or refuses. */
  function SoloRun(s: System, id: nat, ruleId: Uuid, eventId: Uuid, group: Group, answer: Reply): (r: System)
    requires At(s, id) == Idle && !answer.Fault?
  {
    var g := GroupId(ruleId, group.slot.key);
    var s1 := Next(s, Upsert(id, g, eventId, group.slot.grouping, group.members));
    var s2 := Next(s1, Read(id));
    var s3 := Next(s2, Call(id, answer.Accept?, if answer.Accept? then answer.lead else 0));
    if At(s3, id).Minted? then Next(Next(s3, StoreLead(id)), Junction(id))
    else if At(s3, id).Linked? then Next(s3, Junction(id))
    else s3
  }

  ghost predicate SameRecords(w: World, w': World) {
    w'.groups == w.groups && w'.junction == w.junction && w'.log == w.log
  }

  lemma SoloReads(s: System, id: nat, ruleId: Uuid, eventId: Uuid, group: Group) returns (s2: System)
    requires At(s, id) == Idle
    ensures var g := GroupId(ruleId, group.slot.key);
            var up := Upsert(id, g, eventId, group.slot.grouping, group.members);
            && s2 == Next(Next(s, up), Read(id))
            && s2.w == s.w.(groups := s.w.groups[g := C.Stored(s.w, g, eventId, group.slot.grouping)])
            && At(s2, id) == MembersRead(g, eventId, group.slot.grouping, group.members, C.LeadOf(s.w, g),
                                         GroupMembers(s.w, g))
  {
    hide GroupMembers;
    var g := GroupId(ruleId, group.slot.key);
    var s1 := Next(s, Upsert(id, g, eventId, group.slot.grouping, group.members));
    s2 := Next(s1, Read(id));
    C.SameMembers(s.w, s1.w, g);
    C.PutBack(s.w.groups, g);
  }

  /**
   UNDISTURBED, THE PROTOCOL IS THE COMMIT: from any tables, and whether the host accepts or refuses, the walker's
   moves in a row leave the provenance, the junction and the sink's log that the serial commit leaves.
   */
  lemma SoloIsCommit(s: System, id: nat, ruleId: Uuid, eventId: Uuid, group: Group, o: Replies)
    requires At(s, id) == Idle && forall t :: s.w.clock <= t < s.w.clock + 5 ==> !o(t).Fault?
    ensures SameRecords(CommitGroup(s.w, ruleId, eventId, group, o).0,
                        SoloRun(s, id, ruleId, eventId, group, o(s.w.clock + 2)).w)
    ensures At(SoloRun(s, id, ruleId, eventId, group, o(s.w.clock + 2)), id) == Idle
  {
    hide GroupMembers, Added, AddedTo, CallFor, CommitGroup, CreateLeadStep, UpdateLeadStep;
    var g := GroupId(ruleId, group.slot.key);
    var s2 := SoloReads(s, id, ruleId, eventId, group);
    var read := C.CommitPastReads(s.w, ruleId, eventId, group, o);
    var added := AddedTo(s.w, g, group.members);
    AddedToIs(s.w, g, group.members);
    var call := CallFor(C.LeadOf(s.w, g), g, eventId, group.slot.grouping, GroupMembers(s.w, g), added);
    if C.LeadOf(s.w, g).Some? {
      UpdateRecords(read, g, call, added, o);
    } else {
      CreateRecords(read, g, call, added, o);
    }
    hide C.Stored, C.LeadOf, Ids;
  }

  lemma AddedToIs(w: World, g: GroupId, members: seq<Registration>)
    ensures AddedTo(w, g, members) == Added(members, Ids(GroupMembers(w, g)))
  {
  }

  lemma CreateRecords(w: World, g: GroupId, call: SinkCall, added: seq<Registration>, o: Replies)
    requires g in w.groups && forall t :: w.clock <= t < w.clock + 3 ==> !o(t).Fault?
    ensures var w' := CreateLeadStep(w, g, call, added, o).0;
            && w'.log == w.log + [call.(accepted := o(w.clock).Accept?)]
            && if o(w.clock).Refuse? then w'.groups == w.groups && w'.junction == w.junction
               else w'.groups == w.groups[g := w.groups[g].(lead := Some(o(w.clock).lead))]
                    && w'.junction == w.junction + Pairs(g, Ids(added))
  {
    hide Ids;
  }

  lemma UpdateRecords(w: World, g: GroupId, call: SinkCall, added: seq<Registration>, o: Replies)
    requires forall t :: w.clock <= t < w.clock + 3 ==> !o(t).Fault?
    ensures var w' := UpdateLeadStep(w, g, call, added, o).0;
            w'.groups == w.groups
            && if added == [] then w'.log == w.log && w'.junction == w.junction
               else w'.log == w.log + [call.(accepted := o(w.clock).Accept?)]
                    && w'.junction == w.junction + if o(w.clock).Accept? then Pairs(g, Ids(added)) else {}
  {
    hide Ids;
  }

  // ── the lease ──

  /** The lease's queue over these rows, one per event. */
  ghost predicate Mirrors(q: L.Queue, requests: seq<Request>, now: int) {
    && R.OneRowEach(requests) && q.now == now
    && (forall e :: e in q.rows <==> exists i :: 0 <= i < |requests| && requests[i].eventId == e)
    && (forall i :: 0 <= i < |requests| ==>
          requests[i].eventId in q.rows
          && q.rows[requests[i].eventId] == L.Row(requests[i].done, requests[i].claimedAt))
  }

  /** Row i rewritten is the lease's row of its event rewritten. */
  lemma MirrorsRewritten(q: L.Queue, q': L.Queue, requests: seq<Request>, now: int, i: nat, r: Request)
    requires Mirrors(q, requests, now) && i < |requests| && r.eventId == requests[i].eventId
    requires q'.rows == q.rows[r.eventId := L.Row(r.done, r.claimedAt)] && q'.now == now
    ensures Mirrors(q', requests[i := r], now)
  {
    var after := requests[i := r];
    assert forall k :: 0 <= k < |after| ==> after[k].eventId == requests[k].eventId;
    assert requests[i].eventId in q.rows;
  }

  /** A CLAIM BY THE PASS IS THE LEASE'S CRON CLAIM: made exactly when some row can be claimed so, of an event that can,
      and nothing but that row's stamp moves. */
  lemma ClaimIsCronClaim(q: L.Queue, w: World, now: int, o: Replies, id: nat)
    requires Mirrors(q, w.requests, now) && id !in q.walkers && !o(w.clock).Fault?
    ensures var i := P.FirstDue(w.requests, now, []);
            if i < |w.requests| then
              var m := L.CronClaim(id, w.requests[i].eventId);
              L.Enabled(q, m) && Mirrors(L.Next(q, m), P.Claim(w, [], now, o).requests, now)
            else P.Claim(w, [], now, o).requests == w.requests && forall e :: !L.Enabled(q, L.CronClaim(id, e))
  {
    var i := P.FirstDue(w.requests, now, []);
    if i < |w.requests| {
      var m := L.CronClaim(id, w.requests[i].eventId);
      MirrorsRewritten(q, L.Next(q, m), w.requests, now, i, w.requests[i].(claimedAt := Some(now)));
    }
  }

  /** AN OFFICER'S LEASE IS THE LEASE'S OFFICER CLAIM. */
  lemma TryLeaseIsOfficerClaim(q: L.Queue, w: World, now: int, o: Replies, id: nat, e: Uuid)
    requires Mirrors(q, w.requests, now) && id !in q.walkers && !o(w.clock).Fault?
    ensures var m := L.OfficerClaim(id, e);
            if L.Enabled(q, m) then Mirrors(L.Next(q, m), P.TryLease(w, e, now, o).requests, now)
            else P.TryLease(w, e, now, o).requests == w.requests
  {
    var i := P.RowOf(w.requests, e);
    NoRowNoLease(q, w.requests, now, e);
    if i < |w.requests| {
      assert w.requests[i].eventId in q.rows;
      var q' := L.Claimed(q, id, e);
      MirrorsRewritten(q, q', w.requests, now, i, w.requests[i].(claimedAt := Some(now)));
    }
    hide Mirrors;
  }

  lemma NoRowNoLease(q: L.Queue, requests: seq<Request>, now: int, e: Uuid)
    requires Mirrors(q, requests, now)
    ensures e in q.rows <==> P.RowOf(requests, e) < |requests|
  {
    assert forall k :: 0 <= k < |requests| ==> requests[k] in requests;
    hide P.RowOf, R.OneRowEach;
  }

  /** A FINISH IS THE LEASE'S FINISH: completed without an error, parked with one, released either way. */
  lemma FinishIsFinish(q: L.Queue, w: World, now: int, o: Replies, id: nat, error: Option<string>)
    requires Mirrors(q, w.requests, now) && id in q.walkers && !o(w.clock).Fault?
    ensures var m := L.Finish(id, error == None);
            L.Enabled(q, m) && Mirrors(L.Next(q, m), FinishRequest(w, q.walkers[id].eventId, error, o).requests, now)
  {
    var e := q.walkers[id].eventId;
    var after := Finished(w.requests, e, error);
    var q' := L.Next(q, L.Finish(id, error == None));
    hide Finished;
    forall i | 0 <= i < |after|
      ensures after[i].eventId in q'.rows && q'.rows[after[i].eventId] == L.Row(after[i].done, after[i].claimedAt)
    {
      assert after[i].eventId == w.requests[i].eventId;
    }
    assert forall x :: x in q'.rows <==> x in q.rows;
  }

  /** AN ARM IS THE LEASE'S ARM. */
  lemma ArmIsArm(q: L.Queue, requests: seq<Request>, now: int, e: Uuid, place: nat)
    requires Mirrors(q, requests, now)
    ensures Mirrors(L.Next(q, L.Arm(e)), R.ArmOne(requests, e, place), now)
  {
    var i := P.RowOf(requests, e);
    assert forall k :: 0 <= k < |requests| ==> requests[k] in requests;
    if i < |requests| {
      MirrorsRewritten(q, L.Next(q, L.Arm(e)), requests, now, i, requests[i].(done := false));
    } else {
      R.ArmOneAddsNoSecond(requests, e, place);
      InsertedMirrors(q, requests, now, e, if place <= |requests| then place else |requests|);
    }
  }

  lemma InsertedMirrors(q: L.Queue, requests: seq<Request>, now: int, e: Uuid, k: nat)
    requires Mirrors(q, requests, now) && e !in q.rows && k <= |requests|
    ensures var after := requests[..k] + [Request(e, false, None, None)] + requests[k..];
            R.OneRowEach(after) ==> Mirrors(L.Next(q, L.Arm(e)), after, now)
  {
    var after := requests[..k] + [Request(e, false, None, None)] + requests[k..];
    var q' := L.Next(q, L.Arm(e));
    forall i | 0 <= i < |after|
      ensures after[i].eventId in q'.rows && q'.rows[after[i].eventId] == L.Row(after[i].done, after[i].claimedAt)
    {
      if i != k { assert after[i] == requests[if i < k then i else i - 1]; }
    }
    forall x ensures x in q'.rows <==> exists i :: 0 <= i < |after| && after[i].eventId == x {
      if x in q.rows {
        var i :| 0 <= i < |requests| && requests[i].eventId == x;
        assert after[if i < k then i else i + 1].eventId == x;
      }
      assert after[k].eventId == e;
    }
  }
}
