/**
 The lead rule verbs: the closed predicate vocabulary at the gate, the rule and its queue
 rows written together, and what the engine may rely on afterwards.
 */
module LeadRules {
  import opened Wrappers
  import opened Text
  import opened LeadModel
  import opened LeadWalk
  import opened LeadRun
  import opened LeadConvergence
  import P = LeadPass
  import opened LeadAccounting

  const PREDICATE_AXES := ["event", "event_type", "company", "question_answer"]

  datatype GateError = NameEmpty | NoPredicates | NoTrigger | BadBasis(basis: string)
                     | OutsideVocabulary(axis: string) | NoValues(axis: string) | QuestionRequired
                     | QuestionRefused(axis: string) | RuleNotFound

  datatype CreateRuleInput = CreateRuleInput(name: string, eventId: Option<Uuid>, basis: Option<string>,
                                             onCreate: Option<bool>, onConfirm: Option<bool>, onDone: Option<bool>,
                                             predicates: seq<Predicate>)

  datatype PatchRuleInput = PatchRuleInput(name: Option<string>, eventId: Option<Uuid>, active: Option<bool>)

  /** The one shape the engine may meet: a known axis, some values, a question on the
      question_answer axis and nowhere else. */
  predicate WellShaped(p: Predicate) {
    p.axis in PREDICATE_AXES && p.valueIds != [] && (p.questionId.Some? <==> p.axis == "question_answer")
  }

  function Flaw(p: Predicate): (e: Option<GateError>)
    ensures e == None <==> WellShaped(p)
  {
    if p.axis !in PREDICATE_AXES then Some(OutsideVocabulary(p.axis))
    else if p.valueIds == [] then Some(NoValues(p.axis))
    else if p.axis == "question_answer" then if p.questionId == None then Some(QuestionRequired) else None
    else if p.questionId.Some? then Some(QuestionRefused(p.axis)) else None
  }

  /** The first flaw of the first flawed predicate. */
  function FirstFlaw(ps: seq<Predicate>): (e: Option<GateError>)
    ensures e == None <==> forall p :: p in ps ==> WellShaped(p)
  {
    if ps == [] then None
    else
      assert ps == [ps[0]] + ps[1..];
      if Flaw(ps[0]).Some? then Flaw(ps[0]) else FirstFlaw(ps[1..])
  }

  /** The gate: every predicate as it came, or the first flaw. */
  method ValidatePredicates(specs: seq<Predicate>) returns (r: Result<seq<Predicate>, GateError>)
    ensures r == match FirstFlaw(specs) case None => Ok(specs) case Some(e) => Err(e)
    ensures r.Ok? <==> forall p :: p in specs ==> WellShaped(p)
  {
    var out: seq<Predicate> := [];
    var i := 0;
    while i < |specs|
      invariant 0 <= i <= |specs| && out == specs[..i]
      invariant FirstFlaw(specs) == FirstFlaw(specs[i..])
    {
      var spec := specs[i];
      assert specs[i..][1..] == specs[i + 1..];
      if spec.axis !in PREDICATE_AXES { return Err(OutsideVocabulary(spec.axis)); }
      if spec.valueIds == [] { return Err(NoValues(spec.axis)); }
      if spec.axis == "question_answer" {
        if spec.questionId == None { return Err(QuestionRequired); }
        out := out + [Predicate(spec.axis, spec.questionId, spec.valueIds)];
      } else {
        if spec.questionId.Some? { return Err(QuestionRefused(spec.axis)); }
        out := out + [Predicate(spec.axis, None, spec.valueIds)];
      }
      assert Flaw(spec) == None;
      i := i + 1;
    }
    assert specs[..|specs|] == specs && specs[|specs|..] == [];
    r := Ok(out);
  }

  function Armed(flag: Option<bool>): (b: bool) {
    flag == Some(true)
  }

  /** The checks of `create_rule`, in order; None when the rule is accepted. */
  function Refusal(input: CreateRuleInput): (e: Option<GateError>) {
    if Trim(input.name) == "" then Some(NameEmpty)
    else if input.predicates == [] then Some(NoPredicates)
    else if !Armed(input.onCreate) && !Armed(input.onConfirm) && !Armed(input.onDone) then Some(NoTrigger)
    else if input.basis.Some? && input.basis.value != "registration" && input.basis.value != "attendee"
    then Some(BadBasis(input.basis.value))
    else FirstFlaw(input.predicates)
  }

  /** The queue rows of every event in scope, armed: made if missing, undone if done. The queue is in id
      order, and `places` tells where the id drawn for a new row puts it. */
  function Arm(requests: seq<Request>, events: seq<Uuid>, scope: Option<Uuid>, places: Uuid -> nat): (r: seq<Request>)
    decreases |events|
  {
    if events == [] then requests
    else
      var e := events[0];
      Arm(if scope == None || scope == Some(e) then ArmOne(requests, e, places(e)) else requests, events[1..], scope,
          places)
  }

  /** Upsert on the event id; a row not done is left as it is. */
  function ArmOne(requests: seq<Request>, e: Uuid, place: nat): (r: seq<Request>) {
    var i := P.RowOf(requests, e);
    if i < |requests| then requests[i := requests[i].(done := false)]
    else
      var k := if place <= |requests| then place else |requests|;
      requests[..k] + [Request(e, false, None, None)] + requests[k..]
  }

  /** A stored rule: what the engine reads, and the columns kept for the read model. */
  datatype RuleRow = RuleRow(rule: Rule, name: string, basis: string, onCreate: bool, onConfirm: bool, onDone: bool)

  function RowOf(input: CreateRuleInput, id: Uuid): (r: RuleRow) {
    RuleRow(Rule(id, input.eventId, true, input.predicates), Trim(input.name),
            if input.basis.Some? then input.basis.value else "registration",
            Armed(input.onCreate), Armed(input.onConfirm), Armed(input.onDone))
  }

  function RowAt(rows: seq<RuleRow>, id: Uuid): (i: nat)
    ensures i <= |rows|
    ensures i < |rows| ==> rows[i].rule.id == id
    ensures i == |rows| <==> forall r :: r in rows ==> r.rule.id != id
  {
    if rows == [] then 0
    else
      assert rows == [rows[0]] + rows[1..];
      if rows[0].rule.id == id then 0 else RowAt(rows[1..], id) + 1
  }

  /** Name aside, a patch moves the scope or the active flag; never a predicate or a trigger. */
  function Patched(r: RuleRow, input: PatchRuleInput): (p: RuleRow)
    ensures p.rule.predicates == r.rule.predicates && p.rule.id == r.rule.id
  {
    r.(name := if input.name.Some? then Trim(input.name.value) else r.name,
       rule := r.rule.(scope := if input.eventId.Some? then input.eventId else r.rule.scope,
                       active := if input.active.Some? then input.active.value else r.rule.active))
  }

  /** A rule the gate let through: some predicate, each well shaped. */
  predicate Gated(rule: Rule) {
    rule.predicates != [] && forall p :: p in rule.predicates ==> WellShaped(p)
  }

  class LeadRuleCommandService {
    var rules: seq<RuleRow>
    var requests: seq<Request>
    const events: seq<Uuid>
    const places: Uuid -> nat

    ghost predicate Valid()
      reads this
    {
      forall r :: r in rules ==> Gated(r.rule)
    }

    constructor (requests: seq<Request>, events: seq<Uuid>, places: Uuid -> nat)
      ensures Valid() && rules == [] && this.requests == requests && this.events == events && this.places == places
    {
      rules, this.requests, this.events, this.places := [], requests, events, places;
    }

    method CreateRule(input: CreateRuleInput, id: Uuid) returns (r: Result<RuleRow, GateError>)
      requires Valid()
      modifies this
      ensures Valid()
      ensures match Refusal(input)
              case Some(e) => r == Err(e) && rules == old(rules) && requests == old(requests)
              case None =>
                && r == Ok(RowOf(input, id))
                && rules == old(rules) + [r.value]
                && requests == Arm(old(requests), events, input.eventId, places)
    {
      hide WellShaped, Arm, Trim;
      var name := Trim(input.name);
      if name == "" { return Err(NameEmpty); }
      if input.predicates == [] { return Err(NoPredicates); }
      var onCreate, onConfirm, onDone := Armed(input.onCreate), Armed(input.onConfirm), Armed(input.onDone);
      if !(onCreate || onConfirm || onDone) { return Err(NoTrigger); }
      var basis := if input.basis.Some? then input.basis.value else "registration";
      if basis != "registration" && basis != "attendee" { return Err(BadBasis(basis)); }
      var predicates := ValidatePredicates(input.predicates);
      if predicates.Err? { return Err(predicates.error); }
      r := Ok(RuleRow(Rule(id, input.eventId, true, predicates.value), name, basis, onCreate, onConfirm, onDone));
      rules := rules + [r.value];
      requests := Arm(requests, events, input.eventId, places);
    }

    /** The bridge from one answer: its one predicate needs no gate. */
    method FromAnswer(name: string, eventId: Option<Uuid>, onCreate: Option<bool>, onConfirm: Option<bool>,
                      onDone: Option<bool>, question: Uuid, answer: Uuid, id: Uuid)
      returns (r: Result<RuleRow, GateError>)
      requires Valid()
      modifies this
      ensures Valid()
      ensures var input := CreateRuleInput(name, eventId, None, onCreate, onConfirm, onDone,
                                           [Predicate("question_answer", Some(question), [answer])]);
              match Refusal(input)
              case Some(e) => r == Err(e) && rules == old(rules) && requests == old(requests)
              case None => r == Ok(RowOf(input, id)) && rules == old(rules) + [r.value]
                           && requests == Arm(old(requests), events, eventId, places)
    {
      hide Arm, Trim;
      var predicates := [Predicate("question_answer", Some(question), [answer])];
      assert FirstFlaw(predicates) == None;
      hide FirstFlaw;
      var trimmed := Trim(name);
      if trimmed == "" { return Err(NameEmpty); }
      if !Armed(onCreate) && !Armed(onConfirm) && !Armed(onDone) { return Err(NoTrigger); }
      r := Ok(RuleRow(Rule(id, eventId, true, predicates), trimmed, "registration",
                      Armed(onCreate), Armed(onConfirm), Armed(onDone)));
      rules := rules + [r.value];
      requests := Arm(requests, events, eventId, places);
    }

    /** The name is checked before the rule is looked for; reactivating arms the queue. */
    method PatchRule(id: Uuid, input: PatchRuleInput) returns (r: Result<RuleRow, GateError>)
      requires Valid()
      modifies this
      ensures Valid()
      ensures var i := RowAt(old(rules), id);
              if input.name.Some? && Trim(input.name.value) == ""
              then r == Err(NameEmpty) && rules == old(rules) && requests == old(requests)
              else if i == |old(rules)| then r == Err(RuleNotFound) && rules == old(rules) && requests == old(requests)
              else
                && r == Ok(Patched(old(rules)[i], input))
                && rules == old(rules)[i := r.value]
                && requests == (if input.active
                    == Some(true) then Arm(old(requests), events, r.value.rule.scope, places)
                                else old(requests))
    {
      hide WellShaped, Arm, Trim;
      if input.name.Some? && Trim(input.name.value) == "" { return Err(NameEmpty); }
      var i := RowAt(rules, id);
      if i == |rules| { return Err(RuleNotFound); }
      var row := rules[i];
      assert row in rules;
      if input.name.Some? { row := row.(name := Trim(input.name.value)); }
      if input.eventId.Some? { row := row.(rule := row.rule.(scope := input.eventId)); }
      if input.active.Some? { row := row.(rule := row.rule.(active := input.active.value)); }
      rules := rules[i := row];
      if input.active == Some(true) { requests := Arm(requests, events, row.rule.scope, places); }
      r := Ok(row);
    }
  }

  // ── what the engine may rely on ──

  /** What passes the gate is in the engine's vocabulary. */
  lemma GatedIsWellFormed(rule: Rule)
    requires Gated(rule)
    ensures WellFormed(rule)
  {
    forall p | p in rule.predicates ensures KnownAxis(p.axis) { assert WellShaped(p); }
  }

  lemma {:induction false} DrainedRulesAreWellFormed(w: World, rules: seq<Rule>, eventId: Uuid, batch: nat,
                                                     o: Replies, i: nat)
    requires batch > 0 && WalkRules(w, rules, eventId, batch, o).1 == Drained && i < |rules|
    ensures WellFormed(rules[i])
    decreases |rules|
  {
    hide WalkRule, WellFormed, PredicatesRead;
    var (w1, v) := WalkRule(PredicatesRead(w, o), rules[0], eventId, batch, o);
    if i == 0 {
      DrainedRuleIsWellFormed(PredicatesRead(w, o), rules[0], eventId, batch, o);
    } else {
      DrainedRulesAreWellFormed(w1, rules[1..], eventId, batch, o, i - 1);
    }
  }

  lemma DrainedRuleIsWellFormed(w: World, rule: Rule, eventId: Uuid, batch: nat, o: Replies)
    requires batch > 0 && WalkRule(w, rule, eventId, batch, o).1 == Drained
    ensures WellFormed(rule)
  {
    hide CommitGroups, Pending;
    assert !WellFormed(rule) ==> BatchStep(w, rule, eventId, batch, o) == (w, Failed, false);
  }

  /**
   THE GATE IS WHAT THE ENGINE NEEDS. With a host that accepts everything and a database that
   never fails, a walk of an event drains if and only if every rule active on it keeps to the
   vocabulary.
   */
  lemma WalkDrainsIffVocabulary(w: World, eventId: Uuid, batch: nat, o: Replies)
    requires batch > 0 && Accepting(o, w.clock)
    ensures RunOne(w, eventId, batch, o).1 == Drained
        <==> forall r :: r in ActiveRules(w.rules, eventId) ==> WellFormed(r)
  {
    hide WalkRules, WellFormed, ActiveRules, RunOne;
    var rules := ActiveRules(w.rules, eventId);
    RunOneIsItsWalk(w, eventId, batch, o);
    var (walked, v) := WalkRules(Tick(w, o), rules, eventId, batch, o);
    if forall r :: r in rules ==> WellFormed(r) {
      WalkRulesStop(Tick(w, o), rules, eventId, batch, o);
      assert walked.clock >= w.clock;
    }
    if v == Drained {
      forall i | 0 <= i < |rules| ensures WellFormed(rules[i]) {
        DrainedRulesAreWellFormed(Tick(w, o), rules, eventId, batch, o, i);
      }
    }
  }

  /** EVERY RULE THE SERVICE STORES DRAINS: over rules the gate let through, nothing but a refusal or a
      fault keeps a walk from completing. */
  lemma GatedRulesDrain(w: World, eventId: Uuid, batch: nat, o: Replies)
    requires batch > 0 && Accepting(o, w.clock)
    requires forall r :: r in w.rules ==> Gated(r)
    ensures RunOne(w, eventId, batch, o).1 == Drained
  {
    hide RunOne, Gated, WellFormed, ActiveRules, Applies;
    ActiveRulesFacts(w.rules, eventId);
    forall r | r in ActiveRules(w.rules, eventId) ensures WellFormed(r) { GatedIsWellFormed(r); }
    WalkDrainsIffVocabulary(w, eventId, batch, o);
  }

  // ── the queue ──

  ghost predicate ArmedFor(requests: seq<Request>, e: Uuid) {
    exists i :: 0 <= i < |requests| && requests[i].eventId == e && !requests[i].done
  }

  lemma ArmOneArms(requests: seq<Request>, e: Uuid, place: nat)
    ensures ArmedFor(ArmOne(requests, e, place), e)
    ensures forall x :: ArmedFor(requests, x) ==> ArmedFor(ArmOne(requests, e, place), x)
  {
    var r := ArmOne(requests, e, place);
    var i := P.RowOf(requests, e);
    var k := if place <= |requests| then place else |requests|;
    assert r[if i < |requests| then i else k].eventId == e;
    forall x | ArmedFor(requests, x) ensures ArmedFor(r, x) {
      var j :| 0 <= j < |requests| && requests[j].eventId == x && !requests[j].done;
      assert r[if i < |requests| || j < k then j else j + 1].eventId == x;
    }
  }

  /** And no other event. */
  lemma ArmOneArmsOnly(requests: seq<Request>, e: Uuid, place: nat, x: Uuid)
    requires x != e && ArmedFor(ArmOne(requests, e, place), x)
    ensures ArmedFor(requests, x)
  {
    var r := ArmOne(requests, e, place);
    var i := P.RowOf(requests, e);
    var k := if place <= |requests| then place else |requests|;
    var j :| 0 <= j < |r| && r[j].eventId == x && !r[j].done;
    assert requests[if i < |requests| || j < k then j else j - 1].eventId == x;
  }

  /** One row per event, before and after. */
  ghost predicate OneRowEach(requests: seq<Request>) {
    forall i, j :: 0 <= i < j < |requests| ==> requests[i].eventId != requests[j].eventId
  }

  lemma ArmOneAddsNoSecond(requests: seq<Request>, e: Uuid, place: nat)
    requires OneRowEach(requests)
    ensures OneRowEach(ArmOne(requests, e, place))
  {
    var i := P.RowOf(requests, e);
    assert i == |requests| ==> forall j :: 0 <= j < |requests| ==> requests[j] in requests;
  }

  /** EVERY EVENT IN SCOPE IS QUEUED by a new rule, wherever its row lands; none that was queued is lost, and no
      event is queued twice. */
  lemma {:induction false} ArmQueuesTheScope(requests: seq<Request>, events: seq<Uuid>, scope: Option<Uuid>,
                                             places: Uuid -> nat)
    ensures var r := Arm(requests, events, scope, places);
            && (forall e :: e in events && (scope == None || scope == Some(e)) ==> ArmedFor(r, e))
            && (forall x :: ArmedFor(requests, x) ==> ArmedFor(r, x))
            && (OneRowEach(requests) ==> OneRowEach(r))
    decreases |events|
  {
    if events != [] {
      hide ArmOne, ArmedFor, OneRowEach;
      var e := events[0];
      ArmOneArms(requests, e, places(e));
      if OneRowEach(requests) { ArmOneAddsNoSecond(requests, e, places(e)); }
      var armed := if scope == None || scope == Some(e) then ArmOne(requests, e, places(e)) else requests;
      ArmQueuesTheScope(armed, events[1..], scope, places);
      assert events == [e] + events[1..];
    }
  }
}
