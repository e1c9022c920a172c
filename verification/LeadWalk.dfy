/**
 The lead generation walk as a function of the host's replies: one group's commit, a
 batch, a rule's drain loop, one event's request, and the whole pass over the queue.
 */
module LeadWalk {
  import opened Wrappers
  import opened Text
  import opened LeadModel
  import opened LeadGrouping

  const LEASE_SECONDS: int := 900

  /** A stamp still fresh: it expires strictly after the lease. */
  predicate Leased(claimedAt: Option<int>, now: int) {
    claimedAt.Some? && claimedAt.value >= now - LEASE_SECONDS
  }

  function ViewOf(r: Registration): (v: View) {
    View(r.id, r.contact, r.saleOrderId)
  }

  function ViewsOf(rows: seq<Registration>): (s: seq<View>)
    ensures |s| == |rows| && forall i :: 0 <= i < |s| ==> s[i] == ViewOf(rows[i])
  {
    seq(|rows|, i requires 0 <= i < |rows| => ViewOf(rows[i]))
  }

  /** The junctioned rows of a group, in id order. */
  function MembersIn(rows: seq<Registration>, junction: set<(GroupId, Uuid)>, g: GroupId): (s: seq<Registration>) {
    if rows == [] then []
    else (if (g, rows[0].id) in junction then [rows[0]] else []) + MembersIn(rows[1..], junction, g)
  }

  function GroupMembers(w: World, g: GroupId): (s: seq<Registration>) {
    MembersIn(w.registrations, w.junction, g)
  }

  /** The batch members not already among `known`, in walk order. */
  function Added(members: seq<Registration>, known: set<Uuid>): (s: seq<Registration>) {
    if members == [] then []
    else
      var last := members[|members| - 1];
      Added(members[..|members| - 1], known) + if last.id in known then [] else [last]
  }

  function CallFor(update: Option<Uuid>, g: GroupId, eventId: Uuid, grouping: string,
                   known: seq<Registration>, added: seq<Registration>): (c: SinkCall) {
    SinkCall(update, g, eventId, grouping, ViewsOf(known) + ViewsOf(added), false)
  }

  // ── one group ──

  /** After an accepted call: record what the branch still has to write. */
  function JunctionStep(w: World, g: GroupId, added: seq<Registration>, grown: bool, o: Replies)
    : (r: (World, Verdict))
  {
    var j := JunctionAdd(w, g, Ids(added), o);
    if added != [] && o(w.clock).Fault? then (j, Failed)
    else
      var s := j.summary;
      (j.(summary := if grown
                     then s.(groupsGrown := s.groupsGrown + 1, leadsUpdated := s.leadsUpdated + 1)
                     else s.(groupsCreated := s.groupsCreated + 1, leadsCreated := s.leadsCreated + 1)), Drained)
  }

  function CreateLeadStep(w: World, g: GroupId, call: SinkCall, added: seq<Registration>, o: Replies)
    : (r: (World, Verdict))
  {
    var called := CallSink(w, call, o);
    match o(w.clock)
    case Refuse(reason) => (called, Parked(reason))
    case Fault(_) => (called, Failed)
    case Accept(lead) =>
      var linked := SetProvenanceLead(called, g, lead, o);
      if o(called.clock).Fault? then (linked, Failed) else JunctionStep(linked, g, added, false, o)
  }

  function UpdateLeadStep(w: World, g: GroupId, call: SinkCall, added: seq<Registration>, o: Replies)
    : (r: (World, Verdict))
  {
    if added == [] then (w, Drained)
    else
      var called := CallSink(w, call, o);
      match o(w.clock)
      case Refuse(reason) => (called, Parked(reason))
      case Fault(_) => (called, Failed)
      case Accept(_) => JunctionStep(called, g, added, true, o)
  }

  /** Provenance upsert, full membership, the sink, then the junction. */
  function CommitGroup(w: World, ruleId: Uuid, eventId: Uuid, group: Group, o: Replies): (r: (World, Verdict)) {
    var g := GroupId(ruleId, group.slot.key);
    var up := UpsertProvenance(w, g, eventId, group.slot.grouping, o);
    if o(w.clock).Fault? then (up, Failed)
    else
      var read := Tick(up, o);
      if o(up.clock).Fault? then (read, Failed)
      else
        var known := GroupMembers(read, g);
        var added := Added(group.members, Ids(known));
        var lead := up.groups[g].lead;
        var call := CallFor(lead, g, eventId, group.slot.grouping, known, added);
        if lead.Some? then UpdateLeadStep(read, g, call, added, o)
        else CreateLeadStep(read, g, call, added, o)
  }

  // ── a batch, a rule, an event ──

  function CommitGroups(w: World, ruleId: Uuid, eventId: Uuid, groups: seq<Group>, o: Replies): (r: (World, Verdict))
    decreases |groups|
  {
    if groups == [] then (w, Drained)
    else
      var (w1, v) := CommitGroup(w, ruleId, eventId, groups[0], o);
      if v != Drained then (w1, v) else CommitGroups(w1, ruleId, eventId, groups[1..], o)
  }

  predicate WellFormed(rule: Rule) {
    forall p | p in rule.predicates :: KnownAxis(p.axis)
  }

  /** The eligible fetch awaited. */
  function Fetched(w: World, o: Replies): (r: World) {
    Tick(w, o).(fetches := w.fetches + 1)
  }

  function Matched(w: World, n: nat): (r: World) {
    w.(summary := w.summary.(registrationsMatched := w.summary.registrationsMatched + n))
  }

  /** One trip round the batch loop: the next world, its verdict, and whether the loop goes on. */
  function BatchStep(w: World, rule: Rule, eventId: Uuid, batch: nat, o: Replies): (r: (World, Verdict, bool)) {
    if !WellFormed(rule) then (w, Failed, false)
    else if o(w.clock).Fault? then (Fetched(w, o), Failed, false)
    else
      var rows := Take(Pending(w, rule, eventId), batch);
      if rows == [] then (Fetched(w, o), Drained, false)
      else
        var (done, v) := CommitGroups(Matched(Fetched(w, o), |rows|), rule.id, eventId, GroupBy(eventId, rows), o);
        (done, v, v == Drained && |rows| >= batch)
  }
}
