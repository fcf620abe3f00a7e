/** Every review keeps an analysis that can be read back, in memory and from the store. */
module StoredAnalysis {
  import opened Wrappers
  import opened Types
  import opened Text
  import opened Dedupe
  import opened MetadataReader
  import opened Pipeline
  import opened AnalysisCodec
  import opened Lifecycle
  import opened LifecycleFacts
  import opened StoreSpec
  import opened Service
  import opened ServiceRuns

  // ---------- decoding does not see JSON ----------

  lemma PayloadJson(m: Metadata)
    ensures DecodeSuggested(JsonMetadata(m)) == DecodeSuggested(m)
  {
    hide JsonMetadata, StringAt;
    StringsSurviveJson(m, "signal_name");
    StringsSurviveJson(m, "severity");
    StringsSurviveJson(m, "explanation");
  }

  lemma {:induction false} ObjectsJson(items: seq<Value>, js: seq<Value>)
    requires |js| == |items| && forall i :: 0 <= i < |items| ==> js[i] == JsonForm(items[i])
    ensures DecodeAll(Objects(js)) == DecodeAll(Objects(items))
  {
    hide DecodeSuggested;
    if items == [] {
    } else {
      var x, init := items[|items| - 1], items[..|items| - 1];
      ObjectsJson(init, js[..|js| - 1]);
      if x.Obj? {
        PayloadJson(x.fields);
        assert js[|js| - 1].fields == JsonMetadata(x.fields);
        DecodeAppend(Objects(init), x.fields);
        DecodeAppend(Objects(js[..|js| - 1]), JsonMetadata(x.fields));
      } else {
        NotAnObject(x);
        AppendNothing(Objects(init));
        AppendNothing(Objects(js[..|js| - 1]));
      }
    }
  }

  lemma NotAnObject(v: Value)
    requires !v.Obj?
    ensures !JsonForm(v).Obj?
  {
  }

  lemma DecodeAppend(payloads: seq<Metadata>, m: Metadata)
    ensures DecodeAll(payloads + [m]) == DecodeAll(payloads) + DecodeSuggested(m)
  {
    assert (payloads + [m])[..|payloads|] == payloads;
  }

  lemma {:induction false} NoObjects(items: seq<Value>)
    requires forall i :: 0 <= i < |items| ==> !items[i].Obj?
    ensures Objects(items) == []
  {
    if items == [] {
    } else {
      NoObjects(items[..|items| - 1]);
    }
  }

  /** A list of suggestions decodes alike before and after JSON, in every shape it can have. */
  lemma SuggestedJson(m: Metadata, key: string)
    ensures SuggestedAt(JsonMetadata(m), key) == SuggestedAt(m, key)
  {
    hide DecodeAll, DecodeSuggested, FirstWins;
    if key in m {
      match m[key] {
        case List(items) => ObjectsJson(items, JsonForm(m[key]).items);
        case StrList(strs) => NoObjects(JsonForm(m[key]).items);
        case ObjList(objs) => SuggestionsSurviveJson(m, key);
        case _ =>
      }
    }
  }

  lemma ItemJson(item: EvidenceItem)
    ensures DecodeItem(StoredItem(item)) == DecodeItem(item)
    ensures StoredItem(item).metadata.Some? && StoredItem(item).kind == item.kind
  {
    hide StringAt, StringsAt, SuggestedAt;
    var m := Entries(item);
    StringsSurviveJson(m, "mode");
    StringsSurviveJson(m, "analyzer");
    StringsSurviveJson(m, "requires_human_review");
    StringsSurviveJson(m, "rationale");
    SuggestedJson(m, "suggested_signals");
  }

  /** The first item an analysis was stored as, with or without metadata. */
  function FirstAnalysis(items: seq<EvidenceItem>): Option<EvidenceItem> {
    if items == [] then None
    else if items[0].kind == "hybrid_analysis" then Some(items[0])
    else FirstAnalysis(items[1..])
  }

  /** The first analysis item, if there is one, carries metadata. */
  predicate FirstHasMetadata(items: seq<EvidenceItem>) {
    FirstAnalysis(items).None? || FirstAnalysis(items).value.metadata.Some?
  }

  /** After the store it is always the first analysis item that is decoded; before, only if
      it carries metadata. */
  lemma {:induction false} WhatIsDecoded(items: seq<EvidenceItem>)
    ensures var first := FirstAnalysis(items);
            && DecodeEvidence(StoredItems(items)) == (if first.Some? then DecodeItem(first.value) else NO_ANALYSIS)
            && (FirstHasMetadata(items) ==> DecodeEvidence(items) == DecodeEvidence(StoredItems(items)))
  {
    hide DecodeItem, StoredItem;
    if items == [] {
    } else {
      WhatIsDecoded(items[1..]);
      assert StoredItems(items)[1..] == StoredItems(items[1..]);
      ItemJson(items[0]);
    }
  }

  lemma NilDecodes(item: EvidenceItem)
    requires item.metadata.None?
    ensures DecodeItem(item).mode == ""
  {
  }

  /** Decoding gives the same analysis before and after the evidence went through the store
      when the first analysis item is not one with nil metadata; and for evidence that tells of
      an analysis with a mode, only then. */
  lemma DecodingIgnoresJson(items: seq<EvidenceItem>)
    ensures FirstHasMetadata(items) ==> DecodeEvidence(StoredItems(items)) == DecodeEvidence(items)
    ensures DecodeEvidence(items).mode != "" ==>
              (DecodeEvidence(StoredItems(items)) == DecodeEvidence(items) <==> FirstHasMetadata(items))
  {
    hide DecodeItem, StoredItem;
    WhatIsDecoded(items);
    if !FirstHasMetadata(items) {
      NilDecodes(FirstAnalysis(items).value);
    }
  }

  /** Nil metadata does make a difference: such an item is skipped before the store and read
      as an analysis after it. */
  lemma NilMetadataDiffers()
    ensures var item := EvidenceItem("ev_1", "hybrid_analysis", "", "", "text", "", 0.0, None);
            DecodeEvidence([item]) == NO_ANALYSIS && DecodeEvidence(StoredItems([item])).summary == "text"
  {
    hide StoredItem;
    var item := EvidenceItem("ev_1", "hybrid_analysis", "", "", "text", "", 0.0, None);
    WhatIsDecoded([item]);
    assert [item][1..] == [];
  }

  // ---------- built reviews ----------

  lemma ContextKind(key: string)
    ensures key + "_context" != "hybrid_analysis"
  {
    assert (key + "_context")[|key| + 7] == 't';
    assert "hybrid_analysis"[14] == 's';
  }

  lemma {:induction false} ContextKinds(cs: seq<ContextSource>, b: Bundle, ids: Ids, n: nat)
    ensures forall i :: 0 <= i < |ContextItems(cs, b, ids, n)| ==>
            ContextItems(cs, b, ids, n)[i].kind != "hybrid_analysis"
  {
    hide Allowed;
    if cs == [] {
    } else {
      ContextKinds(cs[..|cs| - 1], b, ids, n);
      ContextKind(cs[|cs| - 1].key);
    }
  }

  lemma PackKinds(contexts: seq<ContextSource>, b: Bundle, u: Understanding, ids: Ids, n: nat)
    ensures var pack := Evidence(contexts, b, u, ids, n);
            forall i :: 0 <= i < |pack| ==> pack[i].kind != "hybrid_analysis"
  {
    hide ContextItems, FixedEvidence;
    var fixed, external := FixedEvidence(b, u, ids, n), ContextItems(contexts, b, ids, n + 2);
    FixedKinds(b, u, ids, n);
    ContextKinds(contexts, b, ids, n + 2);
    assert forall i :: 0 <= i < |fixed + external| ==>
        (fixed + external)[i] in fixed || (fixed + external)[i] in external;
  }

  lemma FixedKinds(b: Bundle, u: Understanding, ids: Ids, n: nat)
    ensures forall item :: item in FixedEvidence(b, u, ids, n) ==> item.kind != "hybrid_analysis"
  {
    assert "change_bundle"[0] != "hybrid_analysis"[0] && "risk_context"[0] != "hybrid_analysis"[0];
  }

  lemma AnalysisHasMode(analyze: Analyzer, b: Bundle, u: Understanding, pack: seq<EvidenceItem>)
    ensures RunAnalysis(analyze, b, u, pack).mode != ""
  {
  }

  lemma TraceDecodes(a: HybridAnalysis, id: string)
    requires a.mode != ""
    ensures DecodeEvidence(AnalysisEvidence(a, id)) == Normal(a) && FirstHasMetadata(AnalysisEvidence(a, id))
  {
    hide AnalysisMetadata, DecodeItem, Normal;
    var item := AnalysisEvidence(a, id)[0];
    StoredFields(a);
    ItemRoundTrip(a, item);
  }

  lemma {:induction false} FirstAfterOthers(items: seq<EvidenceItem>, rest: seq<EvidenceItem>)
    requires forall i :: 0 <= i < |items| ==> items[i].kind != "hybrid_analysis"
    ensures FirstAnalysis(items + rest) == FirstAnalysis(rest)
  {
    if items == [] {
      assert items + rest == rest;
    } else {
      assert (items + rest)[1..] == items[1..] + rest;
      FirstAfterOthers(items[1..], rest);
    }
  }

  /** The evidence of an assessment decodes to its analysis, in normal form. */
  lemma AssessmentDecodes(cfg: Config, req: Request, createdAt: Time, ids: Ids, n: nat)
    ensures var a := Assess(cfg, req, createdAt, ids, n);
            DecodeEvidence(a.pack + a.trace) == Normal(a.analysis) && FirstHasMetadata(a.pack + a.trace)
  {
    hide NormalizeChange, UnderstandChange, Evidence, RunAnalysis, AnalysisEvidence, Judge, Normal, DecodeEvidence,
         FirstAnalysis;
    var a := Assess(cfg, req, createdAt, ids, n);
    PackKinds(cfg.contexts, a.bundle, a.understanding, ids, n);
    SkipsOtherItems(a.pack, a.trace);
    FirstAfterOthers(a.pack, a.trace);
    AnalysisHasMode(cfg.analyze, a.bundle, a.understanding, a.pack);
    TraceDecodes(a.analysis, ids("ev", n + |a.pack|));
  }

  // ---------- all runs ----------

  /** The record holds an analysis, and its evidence tells the same one. */
  ghost predicate Traceable(r: Record) {
    r.analysis.Some? && DecodeEvidence(r.evidence) == Normal(r.analysis.value) && FirstHasMetadata(r.evidence)
  }

  lemma BuildIsTraceable(cfg: Config, req: Request, clock: Clock, t: nat, ids: Ids, n: nat)
    ensures Traceable(Build(cfg, req, clock, t, ids, n))
  {
    hide Build, Assess, Normal, DecodeEvidence, FirstHasMetadata;
    BuildParts(cfg, req, clock, t, ids, n);
    AssessmentDecodes(cfg, req, clock(t), ids, n + 2);
  }

  lemma StepTraceable(cfg: Config, clock: Clock, w: World, op: Op)
    requires Inv(clock, w) && forall id :: id in w.records ==> Traceable(w.records[id])
    ensures forall id :: id in Step(cfg, clock, w, op).records ==> Traceable(Step(cfg, clock, w, op).records[id])
  {
    hide Build, Replay, Inv, Traceable, Decide, Evaluate, DedupeKeyFor;
    match op
    case CreateOp(req) => BuildIsTraceable(cfg, req, clock, w.ticks, NextId, w.counter);
    case DecideOp(id, req) => if id in w.records { DecideTraceable(w.records[id], req, clock(w.ticks)); }
    case EvaluateOp(id, req) => if id in w.records { EvaluateTraceable(w.records[id], req, clock(w.ticks)); }
    case RetryOp(id) => RetryAlwaysConflicts(cfg, clock, w, id);
  }

  lemma DecideTraceable(r: Record, req: DecisionRequest, now: Time)
    requires Traceable(r)
    ensures Decide(r, req, now).Success? ==> Traceable(Decide(r, req, now).value)
  {
    hide DecodeEvidence, Normal, FirstHasMetadata;
  }

  lemma EvaluateTraceable(r: Record, req: EvaluationRequest, now: Time)
    requires Traceable(r)
    ensures Traceable(Evaluate(r, req, now))
  {
    hide DecodeEvidence, Normal, FirstHasMetadata;
  }

  lemma {:induction false} RunTraceable(cfg: Config, clock: Clock, ops: seq<Op>)
    requires Monotone(clock)
    ensures var w := Run(cfg, clock, EMPTY_WORLD, ops);
            forall id :: id in w.records ==> Traceable(w.records[id])
  {
    hide Step, Traceable, Inv;
    if ops == [] {
    } else {
      var init := ops[..|ops| - 1];
      RunTraceable(cfg, clock, init);
      RunKeepsInv(cfg, clock, init);
      StepTraceable(cfg, clock, Run(cfg, clock, EMPTY_WORLD, init), ops[|ops| - 1]);
    }
  }

  /** In every reachable world and for any analyzer: what the relational store gives back for
      a review decodes to the analysis the review was made with, in normal form; so it is
      exactly that analysis when it was in normal form already. */
  lemma RunAnalysisComesBack(cfg: Config, clock: Clock, ops: seq<Op>, id: string, round: Rounding,
                             before: Option<Record>)
    requires Monotone(clock) && id in Run(cfg, clock, EMPTY_WORLD, ops).records
    ensures var r := Run(cfg, clock, EMPTY_WORLD, ops).records[id];
            && r.analysis.Some?
            && AnalysisForRecord(StoredForm(round, before, r)) == Normal(r.analysis.value)
            && (AnalysisForRecord(StoredForm(round, before, r)) == AnalysisForRecord(r) <==> IsNormal(r.analysis.value))
  {
    hide Normal, DecodeEvidence, FirstHasMetadata, IsNormal, StoredItems, StoredEvaluation, StoredDecisions,
         JsonRequest;
    RunTraceable(cfg, clock, ops);
    var r := Run(cfg, clock, EMPTY_WORLD, ops).records[id];
    DecodingIgnoresJson(r.evidence);
    ReturnsUnchangedIff(r.analysis.value);
  }
}
