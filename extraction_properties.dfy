/** Properties of the result extractor: what the record holds after any sequence of payloads,
    which items and steps contribute, and what single SDMX and discovery payloads do. */
module ExtractionProperties {
  import opened Json
  import opened Extraction

  // ---------------------------------------------------------------------------------------
  // Independent descriptions of the accumulated record

  /** The dataflows one payload contributes. */
  function FlowsOf(c: Classified): seq<Dataflow> {
    match c
    case Sdmx(f, _) => [f]
    case SdmxFault(Some(f)) => [f]
    case FlowList(es) => RawFlows(es)
    case _ => []
  }

  function AllFlows(cs: seq<Classified>): seq<Dataflow>
    decreases |cs|
  {
    if cs == [] then [] else FlowsOf(cs[0]) + AllFlows(cs[1..])
  }

  /** The observation one payload contributes: only an SDMX message handled to the end with a
      non-empty `dataSets` has one. */
  function ObservationOf(c: Classified): seq<Observation> {
    if c.Sdmx? && c.observation.Some? then [c.observation.value] else []
  }

  function AllObservations(cs: seq<Classified>): seq<Observation>
    decreases |cs|
  {
    if cs == [] then [] else ObservationOf(cs[0]) + AllObservations(cs[1..])
  }

  /** A payload that sets `has_data` (SDMX-shaped, whether or not it raised later, or a
      discovery list). */
  predicate MarksData(c: Classified) {
    c.Sdmx? || c.SdmxFault? || c.FlowList?
  }

  predicate SdmxShaped(c: Classified) {
    c.Sdmx? || c.SdmxFault?
  }

  function CountSdmxShaped(cs: seq<Classified>): nat
    decreases |cs|
  {
    if cs == [] then 0 else (if SdmxShaped(cs[0]) then 1 else 0) + CountSdmxShaped(cs[1..])
  }

  /** The summary a payload writes, if it writes one. */
  function SummaryOf(c: Classified): Option<string> {
    match c
    case Sdmx(_, Some(o)) => Some(SeriesSummary(o.seriesCount, o.observationCount))
    case FlowList(es) => Some(FoundSummary(|es|))
    case _ => None
  }

  /** The summary written by the LAST payload that writes one, else `init`. */
  function LastSummary(init: string, cs: seq<Classified>): string
    decreases |cs|
  {
    if cs == [] then init
    else match SummaryOf(cs[|cs| - 1])
      case Some(s) => s
      case None => LastSummary(init, cs[..|cs| - 1])
  }

  /** Discovery lists reached by the extractor are never empty. */
  predicate FlowListsNonEmpty(cs: seq<Classified>) {
    forall i :: 0 <= i < |cs| && cs[i].FlowList? ==> cs[i].elements != []
  }

  // ---------------------------------------------------------------------------------------
  // The fold against the independent descriptions

  /** The dataflows and observations are exactly the contributions of the payloads, in order:
      `append` and `extend` never drop or reorder earlier entries. */
  lemma {:induction false} ApplyAllContents(acc: Extracted, cs: seq<Classified>)
    ensures ApplyAll(acc, cs).dataflows == acc.dataflows + AllFlows(cs)
    ensures ApplyAll(acc, cs).observations == acc.observations + AllObservations(cs)
    decreases |cs|
  {
    if cs != [] {
      var next := Apply(acc, cs[0]);
      assert next.dataflows == acc.dataflows + FlowsOf(cs[0]);
      assert next.observations == acc.observations + ObservationOf(cs[0]);
      ApplyAllContents(next, cs[1..]);
      assert acc.dataflows + FlowsOf(cs[0]) + AllFlows(cs[1..]) == acc.dataflows + AllFlows(cs);
      assert acc.observations + ObservationOf(cs[0]) + AllObservations(cs[1..])
          == acc.observations + AllObservations(cs);
    }
  }

  /** `has_data` is set exactly when some payload of SDMX or discovery shape was reached. */
  lemma {:induction false} ApplyAllHasData(acc: Extracted, cs: seq<Classified>)
    ensures ApplyAll(acc, cs).hasData <==> acc.hasData || exists i :: 0 <= i < |cs| && MarksData(cs[i])
    decreases |cs|
  {
    if cs != [] {
      var next := Apply(acc, cs[0]);
      assert next.hasData == (acc.hasData || MarksData(cs[0]));
      ApplyAllHasData(next, cs[1..]);
      if exists i :: 0 <= i < |cs| && MarksData(cs[i]) {
        var i :| 0 <= i < |cs| && MarksData(cs[i]);
        if i > 0 {
          assert MarksData(cs[1..][i - 1]);
        }
      }
      if exists i :: 0 <= i < |cs[1..]| && MarksData(cs[1..][i]) {
        var i :| 0 <= i < |cs[1..]| && MarksData(cs[1..][i]);
        assert MarksData(cs[i + 1]);
      }
    }
  }

  /** Last write wins: the summary is the one written by the last payload that writes one. */
  lemma {:induction false} ApplyAllSummary(acc: Extracted, cs: seq<Classified>)
    ensures ApplyAll(acc, cs).summary == LastSummary(acc.summary, cs)
    decreases |cs|
  {
    if cs != [] {
      var n := |cs| - 1;
      assert cs == cs[..n] + [cs[n]];
      ApplyAllAppend(acc, cs[..n], [cs[n]]);
      ApplyAllSummary(acc, cs[..n]);
      assert [cs[n]][1..] == [];
    }
  }

  /** Every observation comes with a dataflow, and from an SDMX-shaped payload. */
  lemma {:induction false} ObservationsBounded(cs: seq<Classified>)
    ensures |AllObservations(cs)| <= |AllFlows(cs)|
    ensures |AllObservations(cs)| <= CountSdmxShaped(cs)
    decreases |cs|
  {
    if cs != [] {
      ObservationsBounded(cs[1..]);
    }
  }

  /** A payload that contributes a dataflow also sets `has_data`. */
  lemma {:induction false} FlowsComeFromMarkedPayloads(cs: seq<Classified>)
    ensures AllFlows(cs) != [] ==> exists i :: 0 <= i < |cs| && MarksData(cs[i])
    decreases |cs|
  {
    if cs != [] {
      FlowsComeFromMarkedPayloads(cs[1..]);
      if FlowsOf(cs[0]) == [] && AllFlows(cs[1..]) != [] {
        var i :| 0 <= i < |cs[1..]| && MarksData(cs[1..][i]);
        assert MarksData(cs[i + 1]);
      }
    }
  }

  /** Without any dataflow, every payload that set `has_data` is an SDMX payload whose
      `structure` made the source raise before the dataflow was appended. */
  lemma {:induction false} NoFlowsOnlyStructureFaults(cs: seq<Classified>, i: nat)
    requires FlowListsNonEmpty(cs)
    requires AllFlows(cs) == []
    requires i < |cs| && MarksData(cs[i])
    ensures cs[i] == SdmxFault(None)
    decreases |cs|
  {
    assert FlowsOf(cs[0]) == [] && AllFlows(cs[1..]) == [];
    if i > 0 {
      assert FlowListsNonEmpty(cs[1..]) by {
        forall j | 0 <= j < |cs[1..]| && cs[1..][j].FlowList?
          ensures cs[1..][j].elements != []
        {
          assert cs[1..][j] == cs[j + 1];
        }
      }
      NoFlowsOnlyStructureFaults(cs[1..], i - 1);
    }
  }

  // ---------------------------------------------------------------------------------------
  // Which items and steps contribute

  /** A step's trace is its items' classifications, in order, up to and including the first
      that raises; nothing after a raise is looked at. */
  lemma {:induction false} ItemsTraceShape(parse: string -> Option<Json>, items: seq<Item>)
    ensures |ItemsTrace(parse, items)| <= |items|
    ensures forall i :: 0 <= i < |ItemsTrace(parse, items)| ==>
              ItemsTrace(parse, items)[i] == ClassifyItem(parse, items[i])
    ensures forall i :: 0 <= i < |ItemsTrace(parse, items)| - 1 ==> !Aborts(ItemsTrace(parse, items)[i])
    ensures |ItemsTrace(parse, items)| < |items| ==>
              |ItemsTrace(parse, items)| > 0 && Aborts(ItemsTrace(parse, items)[|ItemsTrace(parse, items)| - 1])
    decreases |items|
  {
    if items != [] {
      var c := ClassifyItem(parse, items[0]);
      if !Aborts(c) {
        ItemsTraceShape(parse, items[1..]);
        var rest := ItemsTrace(parse, items[1..]);
        assert ItemsTrace(parse, items) == [c] + rest;
        forall i | 0 <= i < |rest| + 1
          ensures ([c] + rest)[i] == ClassifyItem(parse, items[i])
        {
          if i > 0 {
            assert items[1..][i - 1] == items[i];
          }
        }
      }
    }
  }

  /** An item with neither a `text` attribute nor a `text` key (a bare string, say) changes
      nothing: the record is as if the item were not there. */
  lemma {:induction false} TextlessItemIsInvisible(parse: string -> Option<Json>, acc: Extracted,
                                                   pre: seq<Item>, item: Item, post: seq<Item>)
    requires ItemText(item).None?
    ensures ApplyAll(acc, ItemsTrace(parse, pre + [item] + post)) == ApplyAll(acc, ItemsTrace(parse, pre + post))
    decreases |pre|
  {
    if pre == [] {
      assert pre + [item] + post == [item] + post;
      assert ([item] + post)[1..] == post;
      assert ItemsTrace(parse, [item] + post) == [Ignored] + ItemsTrace(parse, post);
      assert pre + post == post;
    } else {
      var c := ClassifyItem(parse, pre[0]);
      assert (pre + [item] + post)[0] == pre[0] && (pre + post)[0] == pre[0];
      assert (pre + [item] + post)[1..] == pre[1..] + [item] + post;
      assert (pre + post)[1..] == pre[1..] + post;
      if !Aborts(c) {
        TextlessItemIsInvisible(parse, Apply(acc, c), pre[1..], item, post);
      }
    }
  }

  /** A decode error or any other raise abandons the rest of that step's items: what follows
      the raising item has no effect. */
  lemma {:induction false} RaiseAbandonsRestOfStep(parse: string -> Option<Json>, pre: seq<Item>,
                                                   item: Item, post: seq<Item>)
    requires Aborts(ClassifyItem(parse, item))
    ensures ItemsTrace(parse, pre + [item] + post) == ItemsTrace(parse, pre + [item])
    decreases |pre|
  {
    if pre == [] {
      assert pre + [item] + post == [item] + post;
      assert pre + [item] == [item];
    } else {
      assert (pre + [item] + post)[0] == pre[0] && (pre + [item])[0] == pre[0];
      assert (pre + [item] + post)[1..] == pre[1..] + [item] + post;
      assert (pre + [item])[1..] == pre[1..] + [item];
      RaiseAbandonsRestOfStep(parse, pre[1..], item, post);
    }
  }

  /** Steps are independent: a raise inside one step never affects another. */
  lemma {:induction false} StepsTraceAppend(parse: string -> Option<Json>, s1: seq<Step>, s2: seq<Step>)
    ensures StepsTrace(parse, s1 + s2) == StepsTrace(parse, s1) + StepsTrace(parse, s2)
    decreases |s1|
  {
    if s1 == [] {
      assert s1 + s2 == s2;
    } else {
      assert (s1 + s2)[0] == s1[0];
      assert (s1 + s2)[1..] == s1[1..] + s2;
      StepsTraceAppend(parse, s1[1..], s2);
    }
  }

  /** A step whose status is not `"success"`, or whose result is empty, changes nothing, and
      the steps after it are processed as if it were not there. */
  lemma {:induction false} SkippedStepIsInvisible(parse: string -> Option<Json>, pre: seq<Step>, step: Step, post: seq<Step>)
    requires !Contributes(step)
    ensures StepsTrace(parse, pre + [step] + post) == StepsTrace(parse, pre + post)
  {
    StepsTraceAppend(parse, pre + [step], post);
    StepsTraceAppend(parse, pre, [step]);
    StepsTraceAppend(parse, pre, post);
    assert [step][1..] == [];
    assert StepsTrace(parse, [step]) == [];
  }

  /** Discovery lists reached by the extractor are never empty. */
  lemma {:induction false} ItemsTraceFlowListsNonEmpty(parse: string -> Option<Json>, items: seq<Item>)
    ensures FlowListsNonEmpty(ItemsTrace(parse, items))
    decreases |items|
  {
    if items != [] {
      var c := ClassifyItem(parse, items[0]);
      assert c.FlowList? ==> c.elements != [];
      if !Aborts(c) {
        ItemsTraceFlowListsNonEmpty(parse, items[1..]);
        var rest := ItemsTrace(parse, items[1..]);
        assert ItemsTrace(parse, items) == [c] + rest;
        forall i | 0 <= i < |[c] + rest| && ([c] + rest)[i].FlowList?
          ensures ([c] + rest)[i].elements != []
        {
          if i > 0 {
            assert ([c] + rest)[i] == rest[i - 1];
          }
        }
      }
    }
  }

  lemma {:induction false} StepsTraceFlowListsNonEmpty(parse: string -> Option<Json>, steps: seq<Step>)
    ensures FlowListsNonEmpty(StepsTrace(parse, steps))
    decreases |steps|
  {
    if steps != [] {
      var head: seq<Classified> := StepTrace(parse, steps[0]);
      if Contributes(steps[0]) {
        ItemsTraceFlowListsNonEmpty(parse, steps[0].result);
      }
      StepsTraceFlowListsNonEmpty(parse, steps[1..]);
      var rest: seq<Classified> := StepsTrace(parse, steps[1..]);
      forall i | 0 <= i < |head + rest| && (head + rest)[i].FlowList?
        ensures (head + rest)[i].elements != []
      {
        if i >= |head| {
          assert (head + rest)[i] == rest[i - |head|];
        } else {
          assert (head + rest)[i] == head[i];
        }
      }
    }
  }

  // ---------------------------------------------------------------------------------------
  // The invariants of the extractor's output

  /** What `extract_actual_data` returns, described without the fold: the dataflows and
      observations are those of the payloads reached, in order; `has_data` tells whether a payload
      of SDMX or discovery shape was reached; the summary is the last one written; there are never
      more observations than dataflows, nor than SDMX-shaped payloads; a dataflow implies
      `has_data`, and `has_data` without any dataflow only comes from SDMX payloads whose
      `structure` is not a dict. */
  lemma ExtractInvariants(parse: string -> Option<Json>, r: ExecutionResult)
    ensures Succeeded(r) && HasExecution(r) ==>
              Extract(parse, r).dataflows == AllFlows(Trace(parse, r)) &&
              Extract(parse, r).observations == AllObservations(Trace(parse, r)) &&
              Extract(parse, r).summary == LastSummary("", Trace(parse, r))
    ensures |Extract(parse, r).observations| <= |Extract(parse, r).dataflows|
    ensures |Extract(parse, r).observations| <= CountSdmxShaped(Trace(parse, r))
    ensures Extract(parse, r).hasData <==> exists i :: 0 <= i < |Trace(parse, r)| && MarksData(Trace(parse, r)[i])
    ensures Extract(parse, r).dataflows != [] ==> Extract(parse, r).hasData
    ensures Extract(parse, r).hasData && Extract(parse, r).dataflows == [] ==> SdmxFault(None) in Trace(parse, r)
  {
    var t := Trace(parse, r);
    var e := Extract(parse, r);
    if Succeeded(r) && HasExecution(r) {
      ApplyAllContents(Zero, t);
      ApplyAllHasData(Zero, t);
      ApplyAllSummary(Zero, t);
      ObservationsBounded(t);
      FlowsComeFromMarkedPayloads(t);
      StepsTraceFlowListsNonEmpty(parse, r.execution.value);
      if e.hasData && e.dataflows == [] {
        var i :| 0 <= i < |t| && MarksData(t[i]);
        NoFlowsOnlyStructureFaults(t, i);
      }
    }
  }

  // ---------------------------------------------------------------------------------------
  // Single payloads

  /** `Total` is defined exactly when every count is. */
  lemma {:induction false} TotalDefined(counts: map<string, Option<nat>>, keys: set<string>)
    requires keys <= counts.Keys
    ensures Total(counts, keys).Some? <==> forall k :: k in keys ==> counts[k].Some?
    decreases keys
  {
    if keys != {} {
      var k :| k in keys;
      TotalPick(counts, keys, k);
      TotalDefined(counts, keys - {k});
    }
  }

  /** An SDMX data message with a non-empty `dataSets` list whose series all have countable
      observations: exactly one structured dataflow (name defaulting to "Unknown", description
      to "") and one observation summary are appended, `has_data` is set and the summary reports
      the counts; `series_count` is the number of series (0 when `series` is missing). */
  lemma SdmxPayloadEffect(acc: Extracted, data: Json, structure: map<string, Json>, series: map<string, Json>)
    requires data.JObject? && "data" in data.fields
    requires data.fields["data"].JObject? && "dataSets" in data.fields["data"].fields
    requires Get(data.fields["data"], "structure", JObject(map[])) == Some(JObject(structure))
    requires data.fields["data"].fields["dataSets"].JArray? && data.fields["data"].fields["dataSets"].elems != []
    requires Get(data.fields["data"].fields["dataSets"].elems[0], "series", JObject(map[])) == Some(JObject(series))
    requires forall k :: k in series ==> ObservationsIn(series[k]).Some?
    ensures SeriesTotal(series).Some?
    ensures forall k :: k in series ==> ObservationsIn(series[k]).value <= SeriesTotal(series).value
    ensures Apply(acc, ClassifyPayload(data))
         == acc.(hasData := true,
                 dataflows := acc.dataflows + [StructureFlow(structure)],
                 observations := acc.observations + [Observation(|series|, SeriesTotal(series).value, data)],
                 summary := SeriesSummary(|series|, SeriesTotal(series).value))
  {
    var counts := ObservationCounts(series);
    TotalDefined(counts, series.Keys);
    var total := SeriesTotal(series).value;
    forall k | k in series ensures ObservationsIn(series[k]).value <= total {
      TotalPick(counts, series.Keys, k);
    }
  }

  /** An SDMX message whose `dataSets` is empty (or otherwise falsy) sets `has_data` and appends
      its dataflow, but adds no observation and leaves the summary alone. */
  lemma EmptyDataSetsAddsOnlyFlow(acc: Extracted, data: Json, structure: map<string, Json>)
    requires data.JObject? && "data" in data.fields
    requires data.fields["data"].JObject? && "dataSets" in data.fields["data"].fields
    requires !Truthy(data.fields["data"].fields["dataSets"])
    requires Get(data.fields["data"], "structure", JObject(map[])) == Some(JObject(structure))
    ensures Apply(acc, ClassifyPayload(data))
         == acc.(hasData := true, dataflows := acc.dataflows + [StructureFlow(structure)])
    ensures !Aborts(ClassifyPayload(data))
  {
  }

  /** A non-empty list payload that does not hold the string "data" extends the dataflows with
      all its elements in order and reports their number; one that holds it makes the source
      raise (`data['data']` on a list). */
  lemma DiscoveryListPayload(acc: Extracted, es: seq<Json>)
    requires es != []
    ensures JString("data") !in es ==>
              (Apply(acc, ClassifyPayload(JArray(es)))
               == acc.(hasData := true, dataflows := acc.dataflows + RawFlows(es), summary := FoundSummary(|es|)))
    ensures JString("data") in es ==> ClassifyPayload(JArray(es)) == Raised
  {
  }

  /** Numbers, booleans and `null` make `'data' in data` raise; a string is searched for the
      substring "data" and raises on `data['data']` when it holds it, else it is ignored. */
  lemma ScalarPayloads(n: real, b: bool, s: string)
    ensures ClassifyPayload(JNull) == Raised
    ensures ClassifyPayload(JBool(b)) == Raised
    ensures ClassifyPayload(JNumber(n)) == Raised
    ensures ClassifyPayload(JString(s)) == if IsSubstring("data", s) then Raised else Ignored
  {
  }

  /** A series without an `observations` key counts 0; one that is not a dict raises. */
  lemma ObservationsDefaults(serie: Json)
    ensures serie.JObject? && "observations" !in serie.fields ==> ObservationsIn(serie) == Some(0)
    ensures !serie.JObject? ==> ObservationsIn(serie) == None
  {
  }

  // ---------------------------------------------------------------------------------------
  // Worked examples

  function ExampleSeries(): map<string, Json> {
    map["s1" := JObject(map["observations" := JObject(map["2020" := JNumber(1.0), "2021" := JNumber(2.0)])]),
        "s2" := JObject(map["observations" := JObject(map[])])]
  }

  /** Two series, one with two observations and one with none: 2 series, 2 observations. */
  lemma ExampleSeriesCounts()
    ensures |ExampleSeries()| == 2
    ensures SeriesTotal(ExampleSeries()) == Some(2)
  {
    var series := ExampleSeries();
    var counts := ObservationCounts(series);
    assert series.Keys == {"s1", "s2"};
    assert counts["s1"] == Some(2) by {
      assert series["s1"].fields["observations"].fields.Keys == {"2020", "2021"};
    }
    assert counts["s2"] == Some(0);
    TotalPick(counts, {"s1", "s2"}, "s1");
    assert {"s1", "s2"} - {"s1"} == {"s2"};
    TotalPick(counts, {"s2"}, "s2");
    assert {"s2"} - {"s2"} == {};
  }

  const ScenarioText: string :=
    "{\"data\":{\"structure\":{\"name\":\"Pop\"},\"dataSets\":[{\"series\":{\"s\":{\"observations\":{\"1\":1}}}}]}}"

  function ScenarioPayload(): Json {
    JObject(map["data" := JObject(map[
      "structure" := JObject(map["name" := JString("Pop")]),
      "dataSets" := JArray([JObject(map["series" := JObject(map["s" := JObject(map["observations" := JObject(map["1" := JNumber(1.0)])])])])])])])
  }

  /** One successful step whose one item carries the scenario text under a `text` key. */
  function ScenarioResult(): ExecutionResult {
    ExecutionResult(Some(JBool(true)), None,
                    Some([Step(Some(JString("success")), [Value(JObject(map["text" := JString(ScenarioText)]))])]),
                    None, None)
  }

  function ScenarioSeries(): map<string, Json> {
    map["s" := JObject(map["observations" := JObject(map["1" := JNumber(1.0)])])]
  }

  lemma ScenarioSeriesTotal()
    ensures |ScenarioSeries()| == 1
    ensures SeriesTotal(ScenarioSeries()) == Some(1)
  {
    var series := ScenarioSeries();
    var counts := ObservationCounts(series);
    assert series.Keys == {"s"};
    assert counts["s"] == Some(1);
    TotalPick(counts, {"s"}, "s");
    assert {"s"} - {"s"} == {};
  }

  lemma ScenarioClassified()
    ensures ClassifyPayload(ScenarioPayload())
         == Sdmx(Structured(JString("Pop"), JString("")), Some(Observation(1, 1, ScenarioPayload())))
  {
    ScenarioSeriesTotal();
    var inner := ScenarioPayload().fields["data"];
    assert Get(inner.fields["dataSets"].elems[0], "series", JObject(map[])) == Some(JObject(ScenarioSeries()));
  }

  lemma ScenarioSummaryText()
    ensures SeriesSummary(1, 1) == "Retrieved 1 data series with 1 observations"
  {
    assert NatToString(1) == "1";
    assert "Retrieved " + "1" == "Retrieved 1";
    assert "Retrieved 1" + " data series with " == "Retrieved 1 data series with ";
    assert "Retrieved 1 data series with " + "1" == "Retrieved 1 data series with 1";
    assert "Retrieved 1 data series with 1" + " observations" == "Retrieved 1 data series with 1 observations";
  }

  /** A successful result carrying one SDMX message with one series of one observation. */
  lemma ScenarioExtraction(parse: string -> Option<Json>)
    requires parse(ScenarioText) == Some(ScenarioPayload())
    ensures Extract(parse, ScenarioResult())
         == Extracted(true, [Structured(JString("Pop"), JString(""))],
                      [Observation(1, 1, ScenarioPayload())],
                      "Retrieved 1 data series with 1 observations")
  {
    var c := Sdmx(Structured(JString("Pop"), JString("")), Some(Observation(1, 1, ScenarioPayload())));
    ScenarioClassified();
    var item := Value(JObject(map["text" := JString(ScenarioText)]));
    assert ClassifyItem(parse, item) == c;
    assert ItemsTrace(parse, [item]) == [c] by {
      assert [item][1..] == [];
    }
    var steps := ScenarioResult().execution.value;
    assert StepsTrace(parse, steps) == [c] by {
      assert steps[1..] == [];
    }
    assert Trace(parse, ScenarioResult()) == [c];
    ScenarioSummaryText();
    assert ApplyAll(Zero, [c]) == Apply(Zero, c) by {
      assert [c][1..] == [];
    }
  }

  /** An SDMX message whose `structure` is `null`: `has_data` is set, yet no dataflow is
      appended, because `structure.get` raises after line 71 has run. So `has_data` does not
      imply a non-empty `dataflows`. */
  lemma HasDataWithoutDataflows(parse: string -> Option<Json>, text: string)
    requires parse(text) == Some(JObject(map["data" := JObject(map["dataSets" := JArray([]), "structure" := JNull])]))
    ensures var r := ExecutionResult(Some(JBool(true)), None,
                                     Some([Step(Some(JString("success")),
                                                [Value(JObject(map["text" := JString(text)]))])]), None, None);
            Extract(parse, r).hasData && Extract(parse, r).dataflows == []
  {
    var data := JObject(map["data" := JObject(map["dataSets" := JArray([]), "structure" := JNull])]);
    assert ClassifyPayload(data) == SdmxFault(None);
    var item := Value(JObject(map["text" := JString(text)]));
    assert ItemsTrace(parse, [item]) == [SdmxFault(None)];
    var steps := [Step(Some(JString("success")), [item])];
    assert StepsTrace(parse, steps) == [SdmxFault(None)] by {
      assert steps[1..] == [];
    }
    assert ApplyAll(Zero, [SdmxFault(None)]) == Apply(Zero, SdmxFault(None)) by {
      assert [SdmxFault(None)][1..] == [];
    }
  }
}
