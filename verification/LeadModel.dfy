/**
 The state of lead generation: registration and rule rows, provenance groups, the
 junction, the request queue, and the log of calls the host's sink has seen. Every
 awaited operation takes the host's next reply, so a run is a function of the replies.
 */
module LeadModel {
  import opened Wrappers
  import opened Text
  import opened Registrations

  // ── rows ──

  /** The columns the sink is shown besides the ids. */
  datatype Contact = Contact(name: Option<string>, email: Option<string>, phone: Option<string>,
                             companyName: Option<string>, partnerId: Option<Uuid>)

  datatype Registration = Registration(
    id: Uuid, eventId: Uuid, state: RegState, active: bool,
    saleOrderId: Option<Uuid>, createdDay: Option<string>, contact: Contact,
    eventTypeId: Option<Uuid>, orgUnitId: Option<Uuid>, answers: set<(Uuid, Uuid)>)

  datatype Predicate = Predicate(axis: string, questionId: Option<Uuid>, valueIds: seq<Uuid>)

  datatype Rule = Rule(id: Uuid, scope: Option<Uuid>, active: bool, predicates: seq<Predicate>)

  /** A queue row; `claimedAt` is the lease stamp. */
  datatype Request = Request(eventId: Uuid, done: bool, error: Option<string>, claimedAt: Option<int>)

  /** The unique key of a provenance row. */
  datatype GroupId = GroupId(ruleId: Uuid, key: string)

  datatype Provenance = Provenance(eventId: Uuid, grouping: string, lead: Option<Uuid>)

  datatype View = View(id: Uuid, contact: Contact, saleOrderId: Option<Uuid>)

  /** One call of the sink: `update` is the lead being grown, or None for a create. */
  datatype SinkCall = SinkCall(update: Option<Uuid>, group: GroupId, eventId: Uuid, grouping: string,
                               payload: seq<View>, accepted: bool)

  datatype Summary = Summary(
    requestsClaimed: nat, rulesEvaluated: nat, registrationsMatched: nat,
    groupsCreated: nat, groupsGrown: nat, leadsCreated: nat, leadsUpdated: nat,
    requestsCompleted: nat, requestsParked: nat)

  const EMPTY_SUMMARY := Summary(0, 0, 0, 0, 0, 0, 0, 0, 0)

  /**
   The tables, the sink's log, and what a run has used up so far: operations awaited
   (`clock`), faults and refusals met, and eligible fetches made.
   */
  datatype World = World(
    registrations: seq<Registration>, rules: seq<Rule>, requests: seq<Request>,
    groups: map<GroupId, Provenance>, junction: set<(GroupId, Uuid)>, log: seq<SinkCall>,
    clock: nat, faults: nat, refusals: nat, fetches: nat, summary: Summary)

  /**
   The host's reply to one awaited operation. `Fault` is an error return, a lost
   connection or a crash of the walker at that point; `landed` says whether the write
   (or the sink call) took effect first. Only the sink can answer `Refuse`.
   */
  datatype Reply = Accept(lead: Uuid) | Refuse(reason: string) | Fault(landed: bool)

  type Replies = nat -> Reply

  /** How a stretch of the walk ended. */
  datatype Verdict = Drained | Parked(reason: string) | Failed

  // ── the eligible domain ──

  predicate KnownAxis(axis: string) {
    axis == "event" || axis == "event_type" || axis == "company" || axis == "question_answer"
  }

  predicate Matches(p: Predicate, r: Registration) {
    if p.axis == "event" then r.eventId in p.valueIds
    else if p.axis == "event_type" then r.eventTypeId.Some? && r.eventTypeId.value in p.valueIds
    else if p.axis == "company" then r.orgUnitId.Some? && r.orgUnitId.value in p.valueIds
    else p.questionId.Some? && exists v | v in p.valueIds :: (p.questionId.value, v) in r.answers
  }

  /** State open or done, active, on the event, and every predicate of the rule holds. */
  predicate InDomain(rule: Rule, eventId: Uuid, r: Registration) {
    && r.eventId == eventId
    && (r.state == Open || r.state == Done)
    && r.active
    && forall p | p in rule.predicates :: Matches(p, r)
  }

  predicate Applies(rule: Rule, eventId: Uuid) {
    rule.active && (rule.scope == None || rule.scope == Some(eventId))
  }

  function ActiveRules(rules: seq<Rule>, eventId: Uuid): (r: seq<Rule>) {
    if rules == [] then []
    else (if Applies(rules[0], eventId) then [rules[0]] else []) + ActiveRules(rules[1..], eventId)
  }

  /** The registrations some group of the rule already holds: the anti-join's right side. */
  function JoinedIds(junction: set<(GroupId, Uuid)>, ruleId: Uuid): set<Uuid> {
    set p | p in junction && p.0.ruleId == ruleId :: p.1
  }

  predicate PendingRow(joined: set<Uuid>, rule: Rule, eventId: Uuid, r: Registration) {
    InDomain(rule, eventId, r) && r.id !in joined
  }

  /** The anti-joined eligible rows, in id order. */
  function PendingRows(rows: seq<Registration>, joined: set<Uuid>, rule: Rule, eventId: Uuid): (s: seq<Registration>) {
    if rows == [] then []
    else (if PendingRow(joined, rule, eventId, rows[0]) then [rows[0]] else [])
         + PendingRows(rows[1..], joined, rule, eventId)
  }

  function Pending(w: World, rule: Rule, eventId: Uuid): (s: seq<Registration>) {
    PendingRows(w.registrations, JoinedIds(w.junction, rule.id), rule, eventId)
  }

  // ── ids ──

  function Ids(rows: seq<Registration>): (s: set<Uuid>)
    ensures s == {} <==> rows == []
  {
    var s := set r | r in rows :: r.id;
    assert rows != [] ==> rows[0].id in s;
    s
  }

  ghost predicate AscendingIds(rows: seq<Registration>) {
    forall i, j :: 0 <= i < j < |rows| ==> rows[i].id < rows[j].id
  }

  /** A subsequence of an id-ordered table: same order, no repeats. */
  ghost predicate Distinct(rows: seq<Registration>) {
    forall i, j :: 0 <= i < j < |rows| ==> rows[i].id != rows[j].id
  }

  // ── awaited operations ──

  predicate Lands(o: Replies, t: nat) {
    !o(t).Fault? || o(t).landed
  }

  /** One operation awaited, its fault (if any) counted. */
  function Tick(w: World, o: Replies): (r: World) {
    w.(clock := w.clock + 1, faults := w.faults + if o(w.clock).Fault? then 1 else 0)
  }

  function UpsertProvenance(w: World, g: GroupId, eventId: Uuid, grouping: string, o: Replies): (r: World) {
    var t := Tick(w, o);
    if Lands(o, w.clock) && g !in w.groups
    then t.(groups := w.groups[g := Provenance(eventId, grouping, None)]) else t
  }

  function SetProvenanceLead(w: World, g: GroupId, lead: Uuid, o: Replies): (r: World) {
    var t := Tick(w, o);
    if Lands(o, w.clock) && g in w.groups
    then t.(groups := w.groups[g := w.groups[g].(lead := Some(lead))]) else t
  }

  /** No statement is sent for an empty list. */
  function JunctionAdd(w: World, g: GroupId, ids: set<Uuid>, o: Replies): (r: World) {
    if ids == {} then w
    else
      var t := Tick(w, o);
      if Lands(o, w.clock) then t.(junction := w.junction + (set x | x in ids :: (g, x))) else t
  }

  /** The sink is called; the log keeps the payload and whether the host took it. */
  function CallSink(w: World, call: SinkCall, o: Replies): (r: World) {
    var t := Tick(w, o);
    var accepted := o(w.clock).Accept? || (o(w.clock).Fault? && o(w.clock).landed);
    t.(log := w.log + [call.(accepted := accepted)],
       refusals := w.refusals + if o(w.clock).Refuse? then 1 else 0)
  }

  // ── reading the log ──

  function PayloadIds(c: SinkCall): (s: set<Uuid>) {
    set v | v in c.payload :: v.id
  }

  /** The ids in the last payload the sink accepted for the group. */
  function LastAccepted(log: seq<SinkCall>, g: GroupId): (s: set<Uuid>) {
    if log == [] then {}
    else
      var c := log[|log| - 1];
      if c.group == g && c.accepted then PayloadIds(c) else LastAccepted(log[..|log| - 1], g)
  }

  /** Accepted `create_lead` calls for the group. */
  function Creates(log: seq<SinkCall>, g: GroupId): (n: nat) {
    if log == [] then 0
    else
      var c := log[|log| - 1];
      Creates(log[..|log| - 1], g) + if c.group == g && c.accepted && c.update == None then 1 else 0
  }

  function AcceptedCalls(log: seq<SinkCall>): (n: nat) {
    if log == [] then 0
    else AcceptedCalls(log[..|log| - 1]) + if log[|log| - 1].accepted then 1 else 0
  }

  function LeadCount(w: World, g: GroupId): (n: nat) {
    if g in w.groups && w.groups[g].lead.Some? then 1 else 0
  }
}
