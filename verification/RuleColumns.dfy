/** What the rule verbs refuse and what they store, answer by answer and column by column. */
module RuleColumns {
  import opened Wrappers
  import opened Text
  import opened LeadModel
  import opened LeadRules
  import P = LeadPass

  // ── the gate ──

  /** One of the four axes, with values, and with a question on the answers' axis alone. */
  predicate Speaks(p: Predicate) {
    && p.axis in {"event", "event_type", "company", "question_answer"}
    && |p.valueIds| > 0
    && (p.axis == "question_answer" <==> p.questionId != None)
  }

  /** The answer to one predicate that does not: the axis first, then the values, then the question. */
  ghost predicate Complaint(p: Predicate, e: GateError) {
    if p.axis !in {"event", "event_type", "company", "question_answer"} then e == OutsideVocabulary(p.axis)
    else if p.valueIds == [] then e == NoValues(p.axis)
    else if p.axis == "question_answer" then p.questionId == None && e == QuestionRequired
    else p.questionId.Some? && e == QuestionRefused(p.axis)
  }

  lemma SpeaksOrComplains(p: Predicate)
    ensures Speaks(p) <==> Flaw(p) == None
    ensures Flaw(p).Some? ==> Complaint(p, Flaw(p).value)
  {
  }

  /** THE GATE NAMES THE FIRST that does not speak the vocabulary, and passes a list exactly when all do. */
  lemma {:induction false} GateAnswers(ps: seq<Predicate>)
    ensures FirstFlaw(ps) == None <==> forall p :: p in ps ==> Speaks(p)
    ensures FirstFlaw(ps).Some? ==>
              exists i :: 0 <= i < |ps| && (forall k :: 0 <= k < i ==> Speaks(ps[k]))
                  && Complaint(ps[i], FirstFlaw(ps).value)
  {
    if ps != [] {
      hide Speaks, Complaint, Flaw;
      SpeaksOrComplains(ps[0]);
      assert ps == [ps[0]] + ps[1..];
      if Flaw(ps[0]) == None {
        GateAnswers(ps[1..]);
        if FirstFlaw(ps).Some? {
          var i :| 0 <= i < |ps[1..]| && (forall k :: 0 <= k < i ==> Speaks(ps[1..][k]))
                   && Complaint(ps[1..][i], FirstFlaw(ps).value);
          assert ps[i + 1] == ps[1..][i];
          forall k | 0 <= k < i + 1 ensures Speaks(ps[k]) { if k > 0 { assert ps[k] == ps[1..][k - 1]; } }
        }
      } else {
        assert Complaint(ps[0], FirstFlaw(ps).value);
      }
    }
  }

  ghost predicate SomeTrigger(input: CreateRuleInput) {
    input.onCreate == Some(true) || input.onConfirm == Some(true) || input.onDone == Some(true)
  }

  ghost predicate BasisKnown(input: CreateRuleInput) {
    input.basis == None || input.basis == Some("registration") || input.basis == Some("attendee")
  }

  /** WHAT A REFUSED RULE IS TOLD, in order: a blank name, no predicates, no trigger, a foreign basis, the first
      predicate outside the vocabulary. */
  lemma RuleRefusals(input: CreateRuleInput)
    ensures var named := !Blank(input.name);
            var filled := named && input.predicates != [];
            var armed := filled && SomeTrigger(input);
            && (Refusal(input) == Some(NameEmpty) <==> !named)
            && (Refusal(input) == Some(NoPredicates) <==> named && input.predicates == [])
            && (Refusal(input) == Some(NoTrigger) <==> filled && !SomeTrigger(input))
            && (armed && !BasisKnown(input) ==>
                  input.basis.Some? && Refusal(input) == Some(BadBasis(input.basis.value)))
            && (armed && BasisKnown(input) ==> Refusal(input) == FirstFlaw(input.predicates))
            && (Refusal(input) == None
                <==> armed && BasisKnown(input) && forall p :: p in input.predicates ==> Speaks(p))
  {
    hide Trim, Blank, Speaks;
    TrimEmptyIffBlank(input.name);
    GateAnswers(input.predicates);
    NoFlawIsNamed(input.predicates);
    hide FirstFlaw;
  }

  lemma {:induction false} NoFlawIsNamed(ps: seq<Predicate>)
    ensures FirstFlaw(ps) !in {Some(NameEmpty), Some(NoPredicates), Some(NoTrigger)}
  {
    if ps != [] { NoFlawIsNamed(ps[1..]); }
  }

  // ── the rows ──

  /** THE RULE STORED: the scope and predicates as given, active, the name bare, the basis that of the registration
      unless another is given, and the triggers exactly those asked for. */
  lemma StoredRule(input: CreateRuleInput, id: Uuid)
    ensures var row := RowOf(input, id);
            && row.rule.id == id && row.rule.scope == input.eventId && row.rule.active
            && row.rule.predicates == input.predicates
            && Bare(input.name, row.name)
            && (input.basis == None ==> row.basis == "registration")
            && (input.basis.Some? ==> row.basis == input.basis.value)
            && (row.onCreate <==> input.onCreate == Some(true))
            && (row.onConfirm <==> input.onConfirm == Some(true))
            && (row.onDone <==> input.onDone == Some(true))
  {
    TrimIsBare(input.name);
    hide Trim, Bare;
  }

  /** THE RULE PATCHED: name, scope and active flag where given, everything else as it was. */
  lemma PatchedRule(row: RuleRow, input: PatchRuleInput)
    ensures var p := Patched(row, input);
            && (match input.name case None => p.name == row.name case Some(n) => Bare(n, p.name))
            && (match input.eventId case None => p.rule.scope == row.rule.scope case Some(e) => p.rule.scope == Some(e))
            && (match input.active case None => p.rule.active == row.rule.active case Some(b) => p.rule.active == b)
            && p.rule.id == row.rule.id && p.rule.predicates == row.rule.predicates && p.basis == row.basis
            && p.onCreate == row.onCreate && p.onConfirm == row.onConfirm && p.onDone == row.onDone
  {
    if input.name.Some? { TrimIsBare(input.name.value); }
    hide Trim, Bare;
  }

  // ── the queue rows ──

  /** A fresh row put before the k-th. */
  function Inserted(requests: seq<Request>, e: Uuid, k: nat): (r: seq<Request>)
    requires k <= |requests|
  {
    requests[..k] + [Request(e, false, None, None)] + requests[k..]
  }

  /** ONE EVENT ARMED: its row undone and otherwise as it was, or a new one where its id falls; the others as they
      were, in their order. */
  lemma ArmedRow(requests: seq<Request>, e: Uuid, place: nat)
    ensures var r := ArmOne(requests, e, place);
            if exists i :: 0 <= i < |requests| && requests[i].eventId == e then
              exists i :: 0 <= i < |requests| && requests[i].eventId == e
                && (forall k :: 0 <= k < i ==> requests[k].eventId != e)
                && r == requests[i := requests[i].(done := false)]
            else
              r == Inserted(requests, e, if place <= |requests| then place else |requests|)
  {
    var i := P.RowOf(requests, e);
    assert forall k :: 0 <= k < |requests| ==> requests[k] in requests;
    if i < |requests| {
      FirstRow(requests, e);
    } else {
      assert ArmOne(requests, e, place) == Inserted(requests, e, if place <= |requests| then place else |requests|);
    }
  }

  lemma {:induction false} FirstRow(requests: seq<Request>, e: Uuid)
    ensures forall k :: 0 <= k < P.RowOf(requests, e) ==> requests[k].eventId != e
  {
    if requests != [] && requests[0].eventId != e { FirstRow(requests[1..], e); }
  }
}
