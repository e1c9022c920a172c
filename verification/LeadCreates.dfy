/**
 How often a group is created, exactly, over every run of any number of walkers: a walker creates
 when its own upsert saw no lead, whatever has become of the group since.
 */
module LeadCreates {
  import opened Wrappers
  import opened Sets
  import opened LeadModel
  import opened LeadWalk
  import opened LeadInvariant
  import opened LeadProtocol

  /** Step u is walker id's last upsert before step c. */
  ghost predicate LastUpsert(moves: seq<Move>, u: nat, c: nat, id: nat)
    requires c <= |moves|
  {
    && u < c && moves[u].Upsert? && moves[u].id == id
    && forall k :: u < k < c ==> !(moves[k].Upsert? && moves[k].id == id)
  }

  /** At step c a walker's call was accepted whose upsert had seen the group without a lead. */
  ghost predicate BlindCall(states: seq<System>, moves: seq<Move>, c: nat, g: GroupId)
    requires |states| == |moves| + 1
  {
    && c < |moves| && moves[c].Call? && moves[c].accepted
    && exists u: nat :: LastUpsert(moves, u, c, moves[c].id) && moves[u].g == g && !HasLead(states[u].w, g)
  }

  ghost function BlindCalls(states: seq<System>, moves: seq<Move>, i: nat, g: GroupId): (cs: set<nat>)
    requires |states| == |moves| + 1
  {
    set c | 0 <= c < i && BlindCall(states, moves, c, g)
  }

  lemma RunLengths(states: seq<System>, moves: seq<Move>)
    requires IsRun(states, moves)
    ensures |states| == |moves| + 1
  {
    hide Next, Enabled;
  }

  lemma StepOf(states: seq<System>, moves: seq<Move>, i: nat)
    requires IsRun(states, moves) && 0 < i < |states|
    ensures |states| == |moves| + 1 && Enabled(states[i - 1], moves[i - 1])
    ensures states[i] == Next(states[i - 1], moves[i - 1])
  {
    assert states[i - 1 + 1] == Next(states[i - 1], moves[i - 1]);
    hide Next, Enabled;
  }

  // ── what a walker knows of the lead it learnt at its upsert ──

  predicate Before(pc: Pc) {
    pc.Upserted? || pc.MembersRead?
  }

  ghost predicate LearntAt(states: seq<System>, moves: seq<Move>, u: nat, i: nat, id: nat)
    requires IsRun(states, moves) && i < |states|
  {
    var pc := At(states[i], id);
    LastUpsert(moves, u, i, id) && Before(pc) && pc.g == moves[u].g
        && (pc.lead == None <==> !HasLead(states[u].w, pc.g))
  }

  /** A walker that has upserted and not yet called either has just done so or stands where it stood. */
  lemma BeforeStep(s: System, m: Move, id: nat)
    requires Enabled(s, m) && Before(At(Next(s, m), id))
    ensures var pc := At(Next(s, m), id);
            if m.Upsert? && m.id == id then pc.g == m.g && (pc.lead == None <==> !HasLead(s.w, m.g))
            else Before(At(s, id)) && At(s, id).g == pc.g && At(s, id).lead == pc.lead
  {
    hide GroupMembers, Added, Ids, CallFor;
  }

  lemma NobodyAtFirst(states: seq<System>, moves: seq<Move>, id: nat)
    requires IsRun(states, moves)
    ensures At(states[0], id) == Idle
  {
    hide Next, Enabled;
  }

  lemma {:induction false} LearntAtItsUpsert(states: seq<System>, moves: seq<Move>, i: nat, id: nat)
    requires IsRun(states, moves) && i < |states| && Before(At(states[i], id))
    ensures exists u :: LearntAt(states, moves, u, i, id)
  {
    NobodyAtFirst(states, moves, id);
    StepOf(states, moves, i);
    hide IsRun, Next, Enabled, HasLead;
    BeforeStep(states[i - 1], moves[i - 1], id);
    if moves[i - 1].Upsert? && moves[i - 1].id == id {
      assert LearntAt(states, moves, i - 1, i, id);
    } else {
      LearntAtItsUpsert(states, moves, i - 1, id);
      var u :| LearntAt(states, moves, u, i - 1, id);
      assert LearntAt(states, moves, u, i, id);
    }
  }

  lemma OneLastUpsert(moves: seq<Move>, u: nat, v: nat, c: nat, id: nat)
    requires c <= |moves| && LastUpsert(moves, u, c, id) && LastUpsert(moves, v, c, id)
    ensures u == v
  {
  }

  /** An accepted call is blind exactly when the walker has no lead to update. */
  lemma BlindIffNoLead(states: seq<System>, moves: seq<Move>, c: nat, g: GroupId)
    requires IsRun(states, moves) && c < |moves| && moves[c].Call? && moves[c].accepted
    ensures At(states[c], moves[c].id).MembersRead?
    ensures BlindCall(states, moves, c, g)
       <==> At(states[c], moves[c].id).g == g && At(states[c], moves[c].id).lead == None
  {
    assert Enabled(states[c], moves[c]);
    var id := moves[c].id;
    LearntAtItsUpsert(states, moves, c, id);
    var u :| LearntAt(states, moves, u, c, id);
    hide IsRun, Enabled, HasLead;
    if BlindCall(states, moves, c, g) {
      var v: nat :| LastUpsert(moves, v, c, id) && moves[v].g == g && !HasLead(states[v].w, g);
      OneLastUpsert(moves, u, v, c, id);
    }
    hide LastUpsert;
  }

  // ── the count ──

  lemma CreatesStep(s: System, m: Move, g: GroupId)
    requires Enabled(s, m)
    ensures Creates(Next(s, m).w.log, g)
         == Creates(s.w.log, g)
            + if m.Call? && m.accepted && At(s, m.id).g == g && At(s, m.id).lead == None then 1 else 0
  {
    hide GroupMembers, Added, Ids, Creates;
    if m.Call? {
      var pc := At(s, m.id);
      CreatesOfAppend(s.w.log,
          CallFor(pc.lead, pc.g, pc.eventId, pc.grouping, pc.known, Added(pc.members, Ids(pc.known)))
              .(accepted := m.accepted), g);
    }
  }

  lemma OneMoreCount(states: seq<System>, moves: seq<Move>, i: nat, g: GroupId)
    requires |states| == |moves| + 1
    ensures |BlindCalls(states, moves, i + 1, g)|
         == |BlindCalls(states, moves, i, g)| + if BlindCall(states, moves, i, g) then 1 else 0
  {
    OneMoreCall(states, moves, i, g);
    hide BlindCall, BlindCalls;
  }

  lemma OneMoreCall(states: seq<System>, moves: seq<Move>, i: nat, g: GroupId)
    requires |states| == |moves| + 1
    ensures BlindCalls(states, moves, i + 1, g)
         == BlindCalls(states, moves, i, g) + if BlindCall(states, moves, i, g) then {i} else {}
    ensures i !in BlindCalls(states, moves, i, g)
  {
    hide BlindCall;
  }

  lemma UnacceptedIsNotBlind(states: seq<System>, moves: seq<Move>, c: nat, g: GroupId)
    requires |states| == |moves| + 1 && c < |moves| && !(moves[c].Call? && moves[c].accepted)
    ensures !BlindCall(states, moves, c, g)
  {
  }

  lemma CreatedByBlindCall(states: seq<System>, moves: seq<Move>, c: nat, g: GroupId)
    requires IsRun(states, moves) && c < |moves|
    ensures |states| == |moves| + 1
    ensures Creates(states[c + 1].w.log, g)
         == Creates(states[c].w.log, g) + if BlindCall(states, moves, c, g) then 1 else 0
  {
    StepOf(states, moves, c + 1);
    hide IsRun, Next, Enabled, Creates, BlindCall;
    CreatesStep(states[c], moves[c], g);
    if moves[c].Call? && moves[c].accepted {
      BlindIffNoLead(states, moves, c, g);
    } else {
      UnacceptedIsNotBlind(states, moves, c, g);
    }
  }

  lemma {:induction false} CreatesAreBlindCalls(states: seq<System>, moves: seq<Move>, i: nat, g: GroupId)
    requires IsRun(states, moves) && i < |states|
    ensures |states| == |moves| + 1
    ensures Creates(states[i].w.log, g) == |BlindCalls(states, moves, i, g)|
  {
    RunLengths(states, moves);
    if i > 0 {
      hide IsRun, BlindCalls, BlindCall, Creates;
      CreatesAreBlindCalls(states, moves, i - 1, g);
      CreatedByBlindCall(states, moves, i - 1, g);
      OneMoreCount(states, moves, i - 1, g);
    } else {
      NoCreates(g);
      assert BlindCalls(states, moves, 0, g) == {};
      hide Next, Enabled;
    }
  }

  // ── one walker, nobody dead ──

  ghost predicate NobodyDied(moves: seq<Move>, i: nat)
    requires i <= |moves|
  {
    forall k :: 0 <= k < i ==> !moves[k].Die?
  }

  /** Having created: still to store its lead, or the group has one; and not before a call until it upserts. */
  ghost predicate HasCreated(s: System, id: nat, g: GroupId) {
    HasLead(s.w, g) || (At(s, id).Minted? && At(s, id).g == g)
  }

  lemma CreatedStays(s: System, m: Move, id: nat, g: GroupId)
    requires Enabled(s, m) && SysInv(s) && !m.Die? && HasCreated(s, id, g)
    ensures HasCreated(Next(s, m), id, g)
    ensures !Before(At(s, id)) && !(m.Upsert? && m.id == id) ==> !Before(At(Next(s, m), id))
  {
    MoveIsOnward(s, m);
    if At(s, id).Minted? { assert PcInv(s.w, At(s, id)); }
    hide GroupMembers, Added, Ids, CallFor, Shown;
  }

  lemma {:induction false} CreatedSince(states: seq<System>, moves: seq<Move>, c: nat, j: nat, id: nat, g: GroupId)
    requires IsRun(states, moves) && c < j < |states| && NobodyDied(moves, j)
    requires moves[c].Call? && moves[c].id == id && BlindCall(states, moves, c, g)
    ensures HasCreated(states[j], id, g)
    ensures (forall k :: c < k < j ==> !(moves[k].Upsert? && moves[k].id == id)) ==> !Before(At(states[j], id))
    decreases j
  {
    StepOf(states, moves, j);
    if c == j - 1 {
      BlindIffNoLead(states, moves, c, g);
      hide IsRun, Enabled, BlindCall, GroupMembers, Added, Ids, CallFor;
    } else {
      hide IsRun, Next, Enabled, BlindCall, HasCreated, SysInv;
      CreatedSince(states, moves, c, j - 1, id, g);
      SinkBeforeJunctionConcurrently(states, moves, j - 1);
      CreatedStays(states[j - 1], moves[j - 1], id, g);
    }
  }

  /** With nobody dead, a walker creates a group once at most. */
  lemma OneCreateEach(states: seq<System>, moves: seq<Move>, c: nat, d: nat, g: GroupId)
    requires IsRun(states, moves) && c < d < |moves| && NobodyDied(moves, d)
    requires BlindCall(states, moves, c, g) && BlindCall(states, moves, d, g)
    ensures moves[c].id != moves[d].id
  {
    if moves[c].id == moves[d].id {
      var id := moves[d].id;
      var u: nat :| LastUpsert(moves, u, d, id) && moves[u].g == g && !HasLead(states[u].w, g);
      BlindIffNoLead(states, moves, d, g);
      if c < u {
        StepOf(states, moves, u + 1);
        hide IsRun, BlindCall, HasLead, Next;
        CreatedSince(states, moves, c, u, id, g);
        assert false;
      } else {
        hide IsRun, BlindCall, HasLead, Next;
        CreatedSince(states, moves, c, d, id, g);
        assert false;
      }
    }
  }

  /** A call of walker id's, by step i, was accepted that was to create the group: its upsert had seen no lead. */
  ghost predicate CreatedBlind(states: seq<System>, moves: seq<Move>, i: nat, id: nat, g: GroupId)
    requires |states| == |moves| + 1
  {
    exists c :: 0 <= c < i && BlindCall(states, moves, c, g) && moves[c].id == id
  }

  lemma TwoCallsAreTwoWalkers(states: seq<System>, moves: seq<Move>, i: nat, g: GroupId)
    requires IsRun(states, moves) && i < |states| && NobodyDied(moves, i) && |BlindCalls(states, moves, i, g)| >= 2
    ensures exists p: nat, q: nat ::
              p != q && CreatedBlind(states, moves, i, p, g) && CreatedBlind(states, moves, i, q, g)
  {
    hide IsRun, BlindCall, BlindCalls, CreatedBlind, NobodyDied;
    RunLengths(states, moves);
    var cs := BlindCalls(states, moves, i, g);
    TwoInSet(cs);
    var c, d :| c in cs && d in cs && c != d;
    CallCreatesBlind(states, moves, i, c, g);
    CallCreatesBlind(states, moves, i, d, g);
    EarlierDied(moves, i, if c < d then d else c);
    if c < d { OneCreateEach(states, moves, c, d, g); } else { OneCreateEach(states, moves, d, c, g); }
    assert CreatedBlind(states, moves, i, moves[c].id, g) && CreatedBlind(states, moves, i, moves[d].id, g);
  }

  lemma EarlierDied(moves: seq<Move>, i: nat, d: nat)
    requires d <= i <= |moves| && NobodyDied(moves, i)
    ensures NobodyDied(moves, d)
  {
  }

  lemma CallCreatesBlind(states: seq<System>, moves: seq<Move>, i: nat, c: nat, g: GroupId)
    requires |states| == |moves| + 1 && c in BlindCalls(states, moves, i, g) && i < |states|
    ensures c < i && BlindCall(states, moves, c, g) && moves[c].Call? && CreatedBlind(states, moves, i, moves[c].id, g)
  {
    hide LastUpsert, HasLead;
  }

  lemma TwoWalkersAreTwoCalls(states: seq<System>, moves: seq<Move>, i: nat, g: GroupId, p: nat, q: nat)
    requires IsRun(states, moves) && i < |states| && p != q
    requires CreatedBlind(states, moves, i, p, g) && CreatedBlind(states, moves, i, q, g)
    ensures |BlindCalls(states, moves, i, g)| >= 2
  {
    var cs := BlindCalls(states, moves, i, g);
    hide IsRun, LastUpsert, HasLead;
    var c :| 0 <= c < i && BlindCall(states, moves, c, g) && moves[c].id == p;
    var d :| 0 <= d < i && BlindCall(states, moves, d, g) && moves[d].id == q;
    assert c in cs && d in cs && c != d;
    TwoInSet(cs);
  }

  /**
   HOW OFTEN A GROUP IS CREATED. Over every run, deaths included: once for each accepted call of a
   walker whose upsert saw the group without a lead. With nobody dead each walker makes one such call at
   most, so a group is created twice if and only if two walkers upserted it before either's lead
   was stored and both their calls were accepted.
   */
  lemma CreatedTwiceIffTwoSawNoLead(states: seq<System>, moves: seq<Move>, i: nat, g: GroupId)
    requires IsRun(states, moves) && i < |states|
    ensures Creates(states[i].w.log, g) == |BlindCalls(states, moves, i, g)|
    ensures NobodyDied(moves, i) ==>
              (Creates(states[i].w.log, g) >= 2
               <==> exists p: nat, q: nat ::
                      p != q && CreatedBlind(states, moves, i, p, g) && CreatedBlind(states, moves, i, q, g))
  {
    CreatesAreBlindCalls(states, moves, i, g);
    hide IsRun, BlindCalls, CreatedBlind, Creates;
    if NobodyDied(moves, i) {
      if Creates(states[i].w.log, g) >= 2 { TwoCallsAreTwoWalkers(states, moves, i, g); }
      if p: nat, q: nat :| p != q && CreatedBlind(states, moves, i, p, g) && CreatedBlind(states, moves, i, q, g) {
        TwoWalkersAreTwoCalls(states, moves, i, g, p, q);
      }
    }
  }
}
