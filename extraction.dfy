/** The result extractor of the conversational backend (`extract_actual_data`): it walks the
    nested execution result (steps, then result items carrying JSON text), decodes each payload
    and accumulates an `Extracted` summary record.

    The specification is given in two layers. `ClassifyPayload` says what one decoded payload does
    to the record and whether it raises; `Trace` lists, in order, the classifications of exactly
    the payloads the source reaches (a raise abandons the rest of that step's items); `Extract`
    folds `Apply` over that trace. The imperative `ExtractActualData` is proved equal to `Extract`. */
module Extraction {
  import opened Json

  /** A result item: an object exposing a `text` attribute, or a plain decoded value (a dict
      carrying a `text` key, a bare string, or anything else). */
  datatype Item = WithTextAttr(text: Json) | Value(v: Json)

  /** One execution step; an absent `result` is the empty list. */
  datatype Step = Step(status: Option<Json>, result: seq<Item>)

  /** The execution result of the remote workflow engine, or the fail-soft record built for it. */
  datatype ExecutionResult = ExecutionResult(
    success: Option<Json>,
    plan: Option<Json>,
    execution: Option<seq<Step>>,
    error: Option<string>,
    errorType: Option<string>)

  /** An entry of `dataflows`: the summary built from an SDMX structure, or one element of a
      discovery list passed through unchanged. */
  datatype Dataflow = Structured(name: Json, description: Json) | Raw(entry: Json)

  datatype Observation = Observation(seriesCount: nat, observationCount: nat, rawData: Json)

  datatype Extracted = Extracted(
    hasData: bool,
    dataflows: seq<Dataflow>,
    observations: seq<Observation>,
    summary: string)

  /** What one decoded payload does, in the order the source's branches are tried. */
  datatype Classified =
      /** An SDMX data message handled to the end; no observation when `dataSets` is falsy. */
    | Sdmx(flow: Dataflow, observation: Option<Observation>)
      /** An SDMX-shaped payload that raised midway: `has_data` was already set, and the
          dataflow was already appended when the raise came after it. */
    | SdmxFault(appended: Option<Dataflow>)
      /** A discovery list (never empty when produced by `ClassifyPayload`). */
    | FlowList(elements: seq<Json>)
      /** No `text` to decode, or a payload of no recognised shape. */
    | Ignored
      /** A decode error or a type error before anything was changed. */
    | Raised

  const NothingFetched: string := "Query planned but no data was fetched."

  /** The record `extract_actual_data` starts from. */
  const Zero: Extracted := Extracted(false, [], [], "")

  function SeriesSummary(seriesCount: nat, observationCount: nat): string {
    "Retrieved " + NatToString(seriesCount) + " data series with " + NatToString(observationCount) + " observations"
  }

  function FoundSummary(count: nat): string {
    "Found " + NatToString(count) + " dataflows"
  }

  /** Every element of a discovery list as a passthrough dataflow, in order. */
  function RawFlows(elements: seq<Json>): seq<Dataflow> {
    seq(|elements|, i requires 0 <= i < |elements| => Raw(elements[i]))
  }

  /** A classification that stops the item loop of its step (the `except` clauses). */
  predicate Aborts(c: Classified) {
    c.SdmxFault? || c.Raised?
  }

  /** The change one payload makes to the record. */
  function Apply(acc: Extracted, c: Classified): Extracted {
    match c
    case Sdmx(flow, None) =>
      acc.(hasData := true, dataflows := acc.dataflows + [flow])
    case Sdmx(flow, Some(o)) =>
      acc.(hasData := true, dataflows := acc.dataflows + [flow],
           observations := acc.observations + [o],
           summary := SeriesSummary(o.seriesCount, o.observationCount))
    case SdmxFault(None) => acc.(hasData := true)
    case SdmxFault(Some(flow)) => acc.(hasData := true, dataflows := acc.dataflows + [flow])
    case FlowList(es) =>
      acc.(hasData := true, dataflows := acc.dataflows + RawFlows(es), summary := FoundSummary(|es|))
    case Ignored => acc
    case Raised => acc
  }

  /** The changes of a sequence of payloads, applied in order. */
  function ApplyAll(acc: Extracted, cs: seq<Classified>): Extracted
    decreases |cs|
  {
    if cs == [] then acc else ApplyAll(Apply(acc, cs[0]), cs[1..])
  }

  function Plus(a: Option<nat>, b: Option<nat>): Option<nat> {
    if a.Some? && b.Some? then Some(a.value + b.value) else None
  }

  lemma PlusZero(a: Option<nat>)
    ensures Plus(Some(0), a) == a
  {
  }

  lemma PlusAssociates(a: Option<nat>, b: Option<nat>, c: Option<nat>)
    ensures Plus(a, Plus(b, c)) == Plus(Plus(a, b), c)
  {
  }

  /** `len(serie.get('observations', {}))`, or `None` where either call raises. */
  function ObservationsIn(serie: Json): Option<nat> {
    match Get(serie, "observations", JObject(map[]))
    case None => None
    case Some(obs) => Len(obs)
  }

  /** The observation count of every series, `None` for a series on which the source raises. */
  function ObservationCounts(series: map<string, Json>): map<string, Option<nat>> {
    map k | k in series :: ObservationsIn(series[k])
  }

  /** The sum of the counts named by `keys`, or `None` when one of them is `None`. Python visits
      the series in insertion order; neither the sum nor whether some series raises depends on
      the order, so the keys are taken in any order here. */
  ghost function Total(counts: map<string, Option<nat>>, keys: set<string>): Option<nat>
    requires keys <= counts.Keys
    decreases keys
  {
    if keys == {} then Some(0)
    else
      var k :| k in keys;
      Plus(counts[k], Total(counts, keys - {k}))
  }

  /** The total does not depend on which key is taken first. */
  lemma {:induction false} TotalPick(counts: map<string, Option<nat>>, keys: set<string>, k: string)
    requires keys <= counts.Keys && k in keys
    ensures Total(counts, keys) == Plus(counts[k], Total(counts, keys - {k}))
    decreases keys
  {
    var j :| j in keys && Total(counts, keys) == Plus(counts[j], Total(counts, keys - {j}));
    if j != k {
      assert keys - {j} - {k} == keys - {k} - {j};
      TotalPick(counts, keys - {j}, k);
      TotalPick(counts, keys - {k}, j);
      var rest := Total(counts, keys - {j} - {k});
      assert Total(counts, keys) == Plus(counts[j], Plus(counts[k], rest));
      assert Total(counts, keys - {k}) == Plus(counts[j], rest);
    }
  }

  /** `total_obs` after the loop of lines 88-90, or `None` when the loop raises. */
  ghost function SeriesTotal(series: map<string, Json>): Option<nat> {
    Total(ObservationCounts(series), series.Keys)
  }

  /** What one decoded payload does (lines 69-105 of the source). */
  ghost function ClassifyPayload(data: Json): (r: Classified)
    ensures r.FlowList? ==> data == JArray(r.elements) && r.elements != [] && JString("data") !in r.elements
    ensures r.Sdmx? || r.SdmxFault? ==>
              data.JObject? && "data" in data.fields && Contains(data.fields["data"], "dataSets") == Some(true)
    ensures r.Sdmx? && r.observation.Some? ==> r.observation.value.rawData == data
  {
    match Contains(data, "data")
    case None => Raised
    case Some(false) =>
      if data.JArray? && data.elems != [] then FlowList(data.elems) else Ignored
    case Some(true) =>
      if data.JObject? then ClassifySdmx(data, data.fields["data"]) else Raised
  }

  /** The SDMX branch, once `'data' in data` held and `data['data']` is `inner`. */
  ghost function ClassifySdmx(data: Json, inner: Json): (r: Classified)
    ensures r.Sdmx? ==> inner.JObject? && "dataSets" in inner.fields && r.flow.Structured? &&
                        (r.observation.None? <==> !Truthy(inner.fields["dataSets"]))
    ensures r.SdmxFault? && r.appended.Some? ==>
              inner.JObject? && "dataSets" in inner.fields && Truthy(inner.fields["dataSets"])
    ensures r.Sdmx? && r.observation.Some? ==> r.observation.value.rawData == data
  {
    match Contains(inner, "dataSets")
    case None => Raised
    case Some(false) => Ignored
    case Some(true) =>
      match Get(inner, "structure", JObject(map[]))
      case None => SdmxFault(None)
      case Some(structure) =>
        if !structure.JObject? then SdmxFault(None)
        else
          var flow := StructureFlow(structure.fields);
          var datasets := inner.fields["dataSets"];
          if !Truthy(datasets) then Sdmx(flow, None)
          else if !datasets.JArray? then SdmxFault(Some(flow))
          else
            match Get(datasets.elems[0], "series", JObject(map[]))
            case None => SdmxFault(Some(flow))
            case Some(series) =>
              if !series.JObject? then SdmxFault(Some(flow))
              else
                match SeriesTotal(series.fields)
                case None => SdmxFault(Some(flow))
                case Some(total) => Sdmx(flow, Some(Observation(|series.fields|, total, data)))
  }

  /** The dataflow summary built from an SDMX `structure` dict. */
  function StructureFlow(structure: map<string, Json>): Dataflow {
    Structured(Field(structure, "name", JString("Unknown")), Field(structure, "description", JString("")))
  }

  /** The JSON text an item carries: its `text` attribute, else its `text` key when it is a dict. */
  function ItemText(item: Item): Option<Json> {
    match item
    case WithTextAttr(t) => Some(t)
    case Value(JObject(m)) => if "text" in m then Some(m["text"]) else None
    case Value(_) => None
  }

  /** What one result item does: no text is skipped, a non-string text or a failed decode raises. */
  ghost function ClassifyItem(parse: string -> Option<Json>, item: Item): (r: Classified)
    ensures ItemText(item).None? ==> r == Ignored
    ensures !r.Ignored? && !r.Raised? ==>
              ItemText(item).Some? && ItemText(item).value.JString? &&
              parse(ItemText(item).value.s).Some? && r == ClassifyPayload(parse(ItemText(item).value.s).value)
  {
    match ItemText(item)
    case None => Ignored
    case Some(JString(text)) =>
      (match parse(text)
       case None => Raised
       case Some(data) => ClassifyPayload(data))
    case Some(_) => Raised
  }

  /** The classifications of the items one step reaches: all of them, up to and including the
      first that raises. */
  ghost function ItemsTrace(parse: string -> Option<Json>, items: seq<Item>): seq<Classified>
    decreases |items|
  {
    if items == [] then []
    else
      var c := ClassifyItem(parse, items[0]);
      if Aborts(c) then [c] else [c] + ItemsTrace(parse, items[1..])
  }

  /** Whether a step's items are looked at: status `"success"` and a non-empty result. */
  predicate Contributes(step: Step) {
    step.status == Some(JString("success")) && step.result != []
  }

  ghost function StepTrace(parse: string -> Option<Json>, step: Step): seq<Classified> {
    if Contributes(step) then ItemsTrace(parse, step.result) else []
  }

  /** The classifications of every payload reached, step after step. */
  ghost function StepsTrace(parse: string -> Option<Json>, steps: seq<Step>): seq<Classified>
    decreases |steps|
  {
    if steps == [] then [] else StepTrace(parse, steps[0]) + StepsTrace(parse, steps[1..])
  }

  predicate Succeeded(r: ExecutionResult) {
    r.success.Some? && Truthy(r.success.value)
  }

  predicate HasExecution(r: ExecutionResult) {
    r.execution.Some? && r.execution.value != []
  }

  /** The payloads `extract_actual_data` reaches for `r`. */
  ghost function Trace(parse: string -> Option<Json>, r: ExecutionResult): seq<Classified> {
    if Succeeded(r) && HasExecution(r) then StepsTrace(parse, r.execution.value) else []
  }

  /** The record `extract_actual_data` returns for `r` (lines 30-113 of the source). */
  ghost function Extract(parse: string -> Option<Json>, r: ExecutionResult): Extracted {
    if !Succeeded(r) then Zero
    else if !HasExecution(r) then Zero.(summary := NothingFetched)
    else ApplyAll(Zero, Trace(parse, r))
  }

  lemma {:induction false} ApplyAllAppend(acc: Extracted, a: seq<Classified>, b: seq<Classified>)
    ensures ApplyAll(acc, a + b) == ApplyAll(ApplyAll(acc, a), b)
    decreases |a|
  {
    if a == [] {
      assert a + b == b;
    } else {
      assert (a + b)[0] == a[0];
      assert (a + b)[1..] == a[1..] + b;
      ApplyAllAppend(Apply(acc, a[0]), a[1..], b);
    }
  }

  /** The accumulation `total_obs += ...` of lines 87-90 over the per-series counts, stopping
      with `None` at the first series on which the source raises. */
  method SumCounts(counts: map<string, Option<nat>>) returns (total: Option<nat>)
    ensures total == Total(counts, counts.Keys)
    ensures total.Some? ==> forall k :: k in counts ==> counts[k].Some? && counts[k].value <= total.value
  {
    ghost var whole := Total(counts, counts.Keys);
    var remaining := counts.Keys;
    var sum: nat := 0;
    PlusZero(whole);
    while remaining != {}
      invariant remaining <= counts.Keys
      invariant whole == Plus(Some(sum), Total(counts, remaining))
      invariant forall k :: k in counts && k !in remaining ==> counts[k].Some? && counts[k].value <= sum
      decreases remaining
    {
      var k :| k in remaining;
      TotalPick(counts, remaining, k);
      var n := counts[k];
      if n.None? {
        return None;
      }
      PlusAssociates(Some(sum), n, Total(counts, remaining - {k}));
      sum := sum + n.value;
      remaining := remaining - {k};
    }
    total := Some(sum);
  }

  /** Lines 84-90: the observations of every series of the first dataset. */
  method CountObservations(series: map<string, Json>) returns (total: Option<nat>)
    ensures total == SeriesTotal(series)
  {
    var counts := ObservationCounts(series);
    assert counts.Keys == series.Keys;
    total := SumCounts(counts);
  }

  /** Applies one decoded payload to the record as lines 69-105 do; `raised` tells whether the
      source raised out of the item loop. */
  method ReadPayload(data: Json, acc: Extracted) returns (e: Extracted, raised: bool)
    ensures e == Apply(acc, ClassifyPayload(data))
    ensures raised == Aborts(ClassifyPayload(data))
  {
    e, raised := acc, false;
    var hasData := Contains(data, "data");
    if hasData.None? {
      raised := true;
      return;
    }
    if hasData.value {
      if !data.JObject? {
        raised := true;
        return;
      }
      var inner := data.fields["data"];
      var hasSets := Contains(inner, "dataSets");
      if hasSets.None? {
        raised := true;
        return;
      }
      if hasSets.value {
        e := e.(hasData := true);
        var structure := Get(inner, "structure", JObject(map[]));
        if structure.None? || !structure.value.JObject? {
          raised := true;
          return;
        }
        var flow := StructureFlow(structure.value.fields);
        e := e.(dataflows := e.dataflows + [flow]);
        var datasets := inner.fields["dataSets"];
        if Truthy(datasets) {
          if !datasets.JArray? {
            raised := true;
            return;
          }
          var series := Get(datasets.elems[0], "series", JObject(map[]));
          if series.None? || !series.value.JObject? {
            raised := true;
            return;
          }
          var total := CountObservations(series.value.fields);
          if total.None? {
            raised := true;
            return;
          }
          var count := |series.value.fields|;
          e := e.(observations := e.observations + [Observation(count, total.value, data)],
                  summary := SeriesSummary(count, total.value));
        }
      }
    } else if data.JArray? && |data.elems| > 0 {
      e := e.(hasData := true, dataflows := e.dataflows + RawFlows(data.elems),
              summary := FoundSummary(|data.elems|));
    }
  }

  /** `extract_actual_data`: the nested loops over steps and items. */
  method ExtractActualData(parse: string -> Option<Json>, r: ExecutionResult) returns (e: Extracted)
    ensures e == Extract(parse, r)
    ensures !Succeeded(r) ==> e == Zero
    ensures Succeeded(r) && !HasExecution(r) ==> e == Extracted(false, [], [], NothingFetched)
  {
    e := Zero;
    if !Succeeded(r) {
      return;
    }
    if !HasExecution(r) {
      e := e.(summary := NothingFetched);
      return;
    }
    var steps := r.execution.value;
    var i := 0;
    while i < |steps|
      invariant 0 <= i <= |steps|
      invariant ApplyAll(e, StepsTrace(parse, steps[i..])) == Extract(parse, r)
    {
      assert steps[i..][1..] == steps[i + 1..];
      ApplyAllAppend(e, StepTrace(parse, steps[i]), StepsTrace(parse, steps[i + 1..]));
      var step := steps[i];
      if step.status == Some(JString("success")) && step.result != [] {
        var items := step.result;
        ghost var e0 := e;
        var j := 0;
        while j < |items|
          invariant 0 <= j <= |items|
          invariant ApplyAll(e, ItemsTrace(parse, items[j..])) == ApplyAll(e0, ItemsTrace(parse, items))
        {
          assert items[j..][1..] == items[j + 1..];
          ghost var c := ClassifyItem(parse, items[j]);
          var text := ItemText(items[j]);
          if text.Some? {
            if !text.value.JString? {
              break;
            }
            var data := parse(text.value.s);
            if data.None? {
              break;
            }
            var raised;
            e, raised := ReadPayload(data.value, e);
            if raised {
              break;
            }
          }
          j := j + 1;
        }
      }
      i := i + 1;
    }
  }
}
