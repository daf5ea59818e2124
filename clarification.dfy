/** The clarification advisor (`should_ask_clarification`): from the execution result and the
    extracted record it decides whether to ask the user to pick a dataflow, to refine the query,
    or nothing. */
module Clarification {
  import opened Json
  import opened Extraction
  import opened ExtractionProperties

  datatype Clarification =
    | SelectDataflow(message: string, options: seq<Dataflow>, prompt: string)
    | RefineQuery(message: string, suggestions: seq<string>)

  const SelectPrompt: string := "Which dataflow would you like to explore? (Type the number or name)"

  const RefineMessage: string := "I planned the query but couldn't retrieve data. This might help:"

  const RefineSuggestions: seq<string> := [
    "Specify a dataflow ID (like DF_B3019)",
    "Add a time period (like \"for 2024\")",
    "Try: \"Get data from DF_B3019 for 2024-10 to 2025-10\""
  ]

  const SelectPrefix: string := "I found "
  const SelectSuffix: string := " dataflows. Here are the first 5:"

  function SelectMessage(count: nat): string {
    SelectPrefix + NatToString(count) + SelectSuffix
  }

  /** Python's `flows[:5]`. */
  function FirstFive(flows: seq<Dataflow>): seq<Dataflow> {
    if |flows| <= 5 then flows else flows[..5]
  }

  /** `result.get('plan')` is truthy. */
  predicate PlanGiven(r: ExecutionResult) {
    r.plan.Some? && Truthy(r.plan.value)
  }

  /** Rule 1: more than three dataflows and no observation (pure discovery). */
  predicate WantsSelection(e: Extracted) {
    |e.dataflows| > 3 && e.observations == []
  }

  /** Rule 2: the query succeeded and was planned, but found nothing. */
  predicate WantsRefinement(r: ExecutionResult, e: Extracted) {
    Succeeded(r) && !e.hasData && PlanGiven(r)
  }

  /** `should_ask_clarification` (lines 116-142 of the source). */
  function Advise(r: ExecutionResult, e: Extracted): Option<Clarification> {
    if |e.dataflows| > 3 && e.observations == [] then
      Some(SelectDataflow(SelectMessage(|e.dataflows|), FirstFive(e.dataflows), SelectPrompt))
    else if Succeeded(r) && !e.hasData && PlanGiven(r) then
      Some(RefineQuery(RefineMessage, RefineSuggestions))
    else
      None
  }

  /** The decision table: rule 1 is tried first, rule 2 only when rule 1 does not apply, and
      nothing otherwise; with three dataflows or fewer, selection is never asked for. */
  lemma AdviseDecision(r: ExecutionResult, e: Extracted)
    ensures (Advise(r, e).Some? && Advise(r, e).value.SelectDataflow?) <==> WantsSelection(e)
    ensures (Advise(r, e).Some? && Advise(r, e).value.RefineQuery?) <==> !WantsSelection(e) && WantsRefinement(r, e)
    ensures Advise(r, e).None? <==> !WantsSelection(e) && !WantsRefinement(r, e)
    ensures |e.dataflows| <= 3 ==> !(Advise(r, e).Some? && Advise(r, e).value.SelectDataflow?)
  {
  }

  /** What a selection offers: the first `min(5, N)` dataflows, in order, a message that names N,
      and the fixed prompt; a refinement carries the three fixed suggestions. */
  lemma AdviseContents(r: ExecutionResult, e: Extracted)
    ensures Advise(r, e).Some? && Advise(r, e).value.SelectDataflow? ==>
              var c := Advise(r, e).value;
              |c.options| == (if |e.dataflows| < 5 then |e.dataflows| else 5) &&
              c.options == e.dataflows[..|c.options|] &&
              c.message == SelectMessage(|e.dataflows|) &&
              c.prompt == SelectPrompt
    ensures Advise(r, e).Some? && Advise(r, e).value.RefineQuery? ==>
              Advise(r, e).value.suggestions == RefineSuggestions && |RefineSuggestions| == 3
  {
  }

  /** The selection message determines the number of dataflows it reports. */
  lemma SelectMessageInjective(m: nat, n: nat)
    requires SelectMessage(m) == SelectMessage(n)
    ensures m == n
  {
    var a, b := SelectMessage(m), SelectMessage(n);
    var p, q := |SelectPrefix|, |SelectSuffix|;
    assert a[p..|a| - q] == NatToString(m);
    assert b[p..|b| - q] == NatToString(n);
    NatToStringInjective(m, n);
  }

  // ---------------------------------------------------------------------------------------
  // The advisor applied to the extractor's output

  /** A failed request (including a remote failure turned into `success: false`) never leads to
      a clarifying question. */
  lemma FailedRequestsNeverClarify(parse: string -> Option<Json>, r: ExecutionResult)
    requires !Succeeded(r)
    ensures Advise(r, Extract(parse, r)) == None
  {
  }

  /** A successful, planned request without execution steps asks the user to refine the query. */
  lemma PlannedWithoutExecutionRefines(parse: string -> Option<Json>, r: ExecutionResult)
    requires Succeeded(r) && !HasExecution(r) && PlanGiven(r)
    ensures Advise(r, Extract(parse, r)) == Some(RefineQuery(RefineMessage, RefineSuggestions))
  {
  }

  lemma {:induction false} NoObservationsMeansNoCompleteSdmx(cs: seq<Classified>)
    requires AllObservations(cs) == []
    ensures forall i :: 0 <= i < |cs| ==> !(cs[i].Sdmx? && cs[i].observation.Some?)
    decreases |cs|
  {
    if cs != [] {
      assert ObservationOf(cs[0]) == [] && AllObservations(cs[1..]) == [];
      NoObservationsMeansNoCompleteSdmx(cs[1..]);
      forall i | 1 <= i < |cs| ensures !(cs[i].Sdmx? && cs[i].observation.Some?) {
        assert cs[i] == cs[1..][i - 1];
      }
    }
  }

  /** A selection is only offered when no SDMX data message with a non-empty `dataSets` was
      fetched, and always from more than three dataflows. */
  lemma SelectionMeansNoFetchedData(parse: string -> Option<Json>, r: ExecutionResult)
    requires Advise(r, Extract(parse, r)).Some? && Advise(r, Extract(parse, r)).value.SelectDataflow?
    ensures Succeeded(r) && HasExecution(r)
    ensures |Extract(parse, r).dataflows| > 3
    ensures forall i :: 0 <= i < |Trace(parse, r)| ==> !(Trace(parse, r)[i].Sdmx? && Trace(parse, r)[i].observation.Some?)
  {
    ExtractInvariants(parse, r);
    NoObservationsMeansNoCompleteSdmx(Trace(parse, r));
  }

  /** A refinement is only suggested when no SDMX-shaped or discovery payload was reached. */
  lemma RefinementMeansNothingFound(parse: string -> Option<Json>, r: ExecutionResult)
    requires Advise(r, Extract(parse, r)).Some? && Advise(r, Extract(parse, r)).value.RefineQuery?
    ensures Succeeded(r) && PlanGiven(r)
    ensures forall i :: 0 <= i < |Trace(parse, r)| ==> !MarksData(Trace(parse, r)[i])
  {
    ExtractInvariants(parse, r);
  }

  /** The worked scenario gets no clarifying question. */
  lemma ScenarioNoClarification(parse: string -> Option<Json>)
    requires parse(ScenarioText) == Some(ScenarioPayload())
    ensures Advise(ScenarioResult(), Extract(parse, ScenarioResult())) == None
  {
    ScenarioExtraction(parse);
  }
}
