/** Reading an analysis back from the evidence item it was stored as. */
module AnalysisCodec {
  import opened Wrappers
  import opened Types
  import opened Text
  import opened Dedupe
  import opened MetadataReader
  import opened Pipeline

  /** One stored suggestion, unless its name is missing. */
  function DecodeSuggested(payload: Metadata): (r: seq<SuggestedSignal>)
    ensures |r| <= 1
  {
    var name := StringAt(payload, "signal_name");
    When(name != "", SuggestedSignal(name, StringAt(payload, "severity"), StringAt(payload, "explanation")))
  }

  /** The two shapes a stored list of suggestions can have; everything else reads as none. */
  function Payloads(m: Metadata, key: string): seq<Metadata> {
    if key !in m then []
    else match m[key]
      case List(items) => Objects(items)
      case ObjList(objs) => seq(|objs|, i requires 0 <= i < |objs| => Texts(objs[i]))
      case _ => []
  }

  function Objects(items: seq<Value>): seq<Metadata> {
    if items == [] then []
    else
      var r, x := Objects(items[..|items| - 1]), items[|items| - 1];
      if x.Obj? then r + [x.fields] else r
  }

  function DecodeAll(payloads: seq<Metadata>): seq<SuggestedSignal> {
    if payloads == [] then []
    else DecodeAll(payloads[..|payloads| - 1]) + DecodeSuggested(payloads[|payloads| - 1])
  }

  function SuggestedAt(m: Metadata, key: string): seq<SuggestedSignal> {
    FirstWins({}, DecodeAll(Payloads(m, key)), SuggestedName)
  }

  function DecodeItem(item: EvidenceItem): HybridAnalysis {
    var m := Entries(item);
    HybridAnalysis(
      StringAt(m, "mode"), StringAt(m, "analyzer"), item.contentSnippet, item.confidence,
      StringAt(m, "requires_human_review") == "true", StringsAt(m, "rationale"), SuggestedAt(m, "suggested_signals"))
  }

  /** The first item with metadata that an analysis was stored as; an empty map is metadata, a
      nil map is not. */
  function DecodeEvidence(items: seq<EvidenceItem>): HybridAnalysis {
    if items == [] then NO_ANALYSIS
    else if items[0].kind == "hybrid_analysis" && items[0].metadata.Some? then DecodeItem(items[0])
    else DecodeEvidence(items[1..])
  }

  function AnalysisForRecord(r: Record): HybridAnalysis {
    match r.analysis
    case Some(a) => a
    case None => DecodeEvidence(r.evidence)
  }

  // ---------- the code ----------

  method DedupeSuggestedSignals(signals: seq<SuggestedSignal>) returns (out: seq<SuggestedSignal>)
    ensures out == FirstWins({}, signals, SuggestedName)
  {
    out := [];
    var seen: set<string> := {};
    for i := 0 to |signals|
      invariant out == FirstWins({}, signals[..i], SuggestedName)
      invariant forall v :: v in seen <==> v in Keys(out, SuggestedName)
    {
      var signal := signals[i];
      FirstWinsStep({}, signals, SuggestedName, i);
      if signal.name != "" && signal.name !in seen {
        assert Keys(out + [signal], SuggestedName) == Keys(out, SuggestedName) + [signal.name];
        seen := seen + {signal.name};
        out := out + [signal];
      }
    }
    assert signals[..|signals|] == signals;
  }

  lemma ObjectsStep(items: seq<Value>, i: nat)
    requires i < |items|
    ensures !items[i].Obj? ==> DecodeAll(Objects(items[..i + 1])) == DecodeAll(Objects(items[..i]))
    ensures items[i].Obj? ==>
              DecodeAll(Objects(items[..i + 1])) == DecodeAll(Objects(items[..i])) + DecodeSuggested(items[i].fields)
  {
    hide DecodeSuggested;
    var before := Objects(items[..i]);
    assert items[..i + 1][..i] == items[..i];
    AppendNothing(before);
    if items[i].Obj? {
      assert (before + [items[i].fields])[..|before|] == before;
    }
  }

  method SuggestedSignalsFromMetadata(m: Metadata, key: string) returns (out: seq<SuggestedSignal>)
    ensures out == SuggestedAt(m, key)
  {
    hide StringAt, DecodeAll, Objects, FirstWins;
    NothingDecoded();
    if key !in m {
      return [];
    }
    var items: seq<Value> := [];
    if m[key].List? {
      items := m[key].items;
    } else if m[key].ObjList? {
      var objs := m[key].objs;
      for i := 0 to |objs|
        invariant |items| == i && forall j :: 0 <= j < i ==> items[j] == Obj(Texts(objs[j]))
      {
        items := items + [Obj(Texts(objs[i]))];
      }
      assert items == seq(|objs|, i requires 0 <= i < |objs| => Obj(Texts(objs[i])));
      ObjectsOfStored(objs);
    } else {
      return [];
    }
    assert Objects(items) == Payloads(m, key);
    var signals: seq<SuggestedSignal> := [];
    assert items[..0] == [];
    for i := 0 to |items|
      invariant signals == DecodeAll(Objects(items[..i]))
    {
      ObjectsStep(items, i);
      if !items[i].Obj? {
        continue;
      }
      var payload := items[i].fields;
      var name := StringAt(payload, "signal_name");
      AppendNothing(signals);
      if name == "" {
        continue;
      }
      signals := signals + [SuggestedSignal(name, StringAt(payload, "severity"), StringAt(payload, "explanation"))];
    }
    assert items[..|items|] == items;
    out := DedupeSuggestedSignals(signals);
  }

  lemma NothingDecoded()
    ensures Objects([]) == [] && DecodeAll([]) == [] && FirstWins({}, [], SuggestedName) == []
  {
  }

  lemma {:induction false} DecodeFrom(items: seq<EvidenceItem>, i: nat)
    requires i <= |items|
    requires forall j :: 0 <= j < i ==> items[j].kind != "hybrid_analysis" || items[j].metadata.None?
    ensures DecodeEvidence(items) == DecodeEvidence(items[i..])
  {
    hide DecodeItem;
    if i == 0 {
    } else {
      DecodeFrom(items[1..], i - 1);
      assert items[1..][i - 1..] == items[i..];
    }
  }

  method ReadAnalysis(r: Record) returns (a: HybridAnalysis)
    ensures a == AnalysisForRecord(r)
  {
    hide StringAt, StringsAt, SuggestedAt;
    if r.analysis.Some? {
      return r.analysis.value;
    }
    for i := 0 to |r.evidence|
      invariant forall j :: 0 <= j < i ==> r.evidence[j].kind != "hybrid_analysis" || r.evidence[j].metadata.None?
    {
      var item := r.evidence[i];
      if item.kind != "hybrid_analysis" || item.metadata.None? {
        continue;
      }
      DecodeFrom(r.evidence, i);
      var m := item.metadata.value;
      var suggested := SuggestedSignalsFromMetadata(m, "suggested_signals");
      return HybridAnalysis(
          StringAt(m, "mode"), StringAt(m, "analyzer"), item.contentSnippet, item.confidence,
          StringAt(m, "requires_human_review") == "true", StringsAt(m, "rationale"), suggested);
    }
    DecodeFrom(r.evidence, |r.evidence|);
    a := NO_ANALYSIS;
  }

  // ---------- normal forms ----------

  function NormalSuggested(s: SuggestedSignal): SuggestedSignal {
    SuggestedSignal(Trim(s.name), Trim(s.severity), Trim(s.explanation))
  }

  function NormalAll(ss: seq<SuggestedSignal>): (r: seq<SuggestedSignal>)
    ensures |r| == |ss|
    ensures forall i :: 0 <= i < |ss| ==> r[i] == NormalSuggested(ss[i])
  {
    seq(|ss|, i requires 0 <= i < |ss| => NormalSuggested(ss[i]))
  }

  function NormalSuggestions(ss: seq<SuggestedSignal>): seq<SuggestedSignal> {
    FirstWins({}, NormalAll(ss), SuggestedName)
  }

  /** Mode and analyzer trimmed, rationale without repetitions and empty lines, suggestions
      trimmed and unique by name. */
  function Normal(a: HybridAnalysis): HybridAnalysis {
    HybridAnalysis(Trim(a.mode), Trim(a.analyzer), a.summary, a.confidence, a.requiresHumanReview,
                   FirstWins({}, a.rationale, Self), NormalSuggestions(a.suggested))
  }

  ghost predicate IsNormal(a: HybridAnalysis) {
    && IsTrimmed(a.mode) && IsTrimmed(a.analyzer)
    && Distinct(a.rationale) && "" !in a.rationale
    && Distinct(Keys(a.suggested, SuggestedName)) && "" !in Keys(a.suggested, SuggestedName)
    && forall s :: s in a.suggested ==> IsTrimmed(s.name) && IsTrimmed(s.severity) && IsTrimmed(s.explanation)
  }

  // ---------- the round trip ----------

  lemma CompactedText(m: map<string, string>, k: string)
    requires k in m
    ensures StringAt(Texts(CompactTexts(m)), k) == Trim(m[k])
  {
  }

  lemma SuggestedRoundTrip(s: SuggestedSignal)
    ensures DecodeSuggested(Texts(EncodeSuggested(s))) == When(Trim(s.name) != "", NormalSuggested(s))
  {
    hide Texts, CompactTexts, StringAt, Trim;
    var m := map["signal_name" := s.name, "severity" := s.severity, "explanation" := s.explanation];
    assert "signal_name"[0] != "explanation"[0];
    CompactedText(m, "signal_name");
    CompactedText(m, "severity");
    CompactedText(m, "explanation");
  }

  lemma {:induction false} DecodeThenFilter(ss: seq<SuggestedSignal>, payloads: seq<Metadata>)
    requires |payloads| == |ss| && forall i :: 0 <= i < |ss| ==> payloads[i] == Texts(EncodeSuggested(ss[i]))
    ensures FirstWins({}, DecodeAll(payloads), SuggestedName) == NormalSuggestions(ss)
  {
    hide EncodeSuggested, Texts, DecodeSuggested, NormalSuggested;
    if ss == [] {
    } else {
      var init, s := ss[..|ss| - 1], ss[|ss| - 1];
      DecodeThenFilter(init, payloads[..|ss| - 1]);
      SuggestedRoundTrip(s);
      var before := DecodeAll(payloads[..|ss| - 1]);
      AppendNothing(before);
      NormalName(s);
      assert NormalAll(ss) == NormalAll(init) + [NormalSuggested(s)];
      FirstWinsSkips({}, before, NormalAll(init), NormalSuggested(s), SuggestedName);
    }
  }

  lemma NormalName(s: SuggestedSignal)
    ensures SuggestedName(NormalSuggested(s)) == Trim(s.name)
  {
  }

  lemma {:induction false} ObjectsOfStored(objs: seq<map<string, string>>)
    ensures Objects(seq(|objs|, i requires 0 <= i < |objs| => Obj(Texts(objs[i]))))
         == seq(|objs|, i requires 0 <= i < |objs| => Texts(objs[i]))
  {
    if objs == [] {
    } else {
      var init := objs[..|objs| - 1];
      ObjectsOfStored(init);
      var items := seq(|objs|, i requires 0 <= i < |objs| => Obj(Texts(objs[i])));
      assert items[..|objs| - 1] == seq(|init|, i requires 0 <= i < |init| => Obj(Texts(init[i])));
    }
  }

  /** The list of suggestions reads the same before and after a trip through JSON. */
  lemma SuggestionsSurviveJson(m: Metadata, key: string)
    requires key in m && m[key].ObjList?
    ensures Payloads(JsonMetadata(m), key) == Payloads(m, key)
  {
    ObjectsOfStored(m[key].objs);
  }

  /** What each stored field reads as. */
  lemma StoredFields(a: HybridAnalysis)
    ensures var m := AnalysisMetadata(a);
            && m != map[]
            && StringAt(m, "mode") == Trim(a.mode) && StringAt(m, "analyzer") == Trim(a.analyzer)
            && StringAt(m, "requires_human_review") == Trim(BoolText(a.requiresHumanReview))
            && StringsAt(m, "rationale") == FirstWins({}, a.rationale, Self)
            && "suggested_signals" in m && m["suggested_signals"].ObjList?
            && |m["suggested_signals"].objs| == |a.suggested|
            && forall i :: 0 <= i < |a.suggested| ==> m["suggested_signals"].objs[i] == EncodeSuggested(a.suggested[i])
  {
    hide Trim, EncodeSuggested, BoolText, FirstWins;
    assert "mode" in AnalysisMetadata(a);
  }

  lemma TrimmedFlag(b: bool)
    ensures Trim(BoolText(b)) == "true" <==> b
  {
    assert IsTrimmed("true") && IsTrimmed("false");
    assert "false"[0] != "true"[0];
  }

  /** Decoding a stored analysis gives its normal form, in memory and after JSON alike. */
  lemma ItemRoundTrip(a: HybridAnalysis, item: EvidenceItem)
    requires item.contentSnippet == a.summary && item.confidence == a.confidence
    requires item.metadata == Some(AnalysisMetadata(a)) || item.metadata == Some(JsonMetadata(AnalysisMetadata(a)))
    ensures DecodeItem(item) == Normal(a)
  {
    hide AnalysisMetadata, JsonMetadata, StringAt, StringsAt, Payloads, DecodeAll, NormalSuggestions, Trim, BoolText,
         FirstWins;
    var m := AnalysisMetadata(a);
    StoredFields(a);
    StringsSurviveJson(m, "mode");
    StringsSurviveJson(m, "analyzer");
    StringsSurviveJson(m, "requires_human_review");
    StringsSurviveJson(m, "rationale");
    SuggestionsSurviveJson(m, "suggested_signals");
    StoredPayloads(a);
    DecodeThenFilter(a.suggested, Payloads(m, "suggested_signals"));
    TrimmedFlag(a.requiresHumanReview);
  }

  lemma StoredPayloads(a: HybridAnalysis)
    ensures var ps := Payloads(AnalysisMetadata(a), "suggested_signals");
            |ps| == |a.suggested| && forall i :: 0 <= i < |ps| ==> ps[i] == Texts(EncodeSuggested(a.suggested[i]))
  {
    hide AnalysisMetadata, EncodeSuggested, Texts;
    StoredFields(a);
  }

  lemma {:induction false} SkipsOtherItems(items: seq<EvidenceItem>, rest: seq<EvidenceItem>)
    requires forall i :: 0 <= i < |items| ==> items[i].kind != "hybrid_analysis"
    ensures DecodeEvidence(items + rest) == DecodeEvidence(rest)
  {
    if items == [] {
      assert items + rest == rest;
    } else {
      assert (items + rest)[1..] == items[1..] + rest;
      SkipsOtherItems(items[1..], rest);
    }
  }

  lemma NormalSuggestionTrimmed(ss: seq<SuggestedSignal>, s: SuggestedSignal)
    requires s in NormalSuggestions(ss)
    ensures IsTrimmed(s.name) && IsTrimmed(s.severity) && IsTrimmed(s.explanation)
  {
    hide Trim, FirstWins;
    FirstWinsKeepsFirst({}, NormalAll(ss), SuggestedName, s);
  }

  lemma NormalIsNormal(a: HybridAnalysis)
    ensures IsNormal(Normal(a))
  {
    hide Trim, FirstWins, NormalAll, IsTrimmed;
    FirstWinsKeys({}, a.rationale, Self);
    var r := FirstWins({}, a.rationale, Self);
    assert Keys(r, Self) == r;
    FirstWinsKeys({}, NormalAll(a.suggested), SuggestedName);
    forall s | s in NormalSuggestions(a.suggested)
      ensures IsTrimmed(s.name) && IsTrimmed(s.severity) && IsTrimmed(s.explanation)
    {
      NormalSuggestionTrimmed(a.suggested, s);
    }
  }

  /** Analyses already in normal form come back exactly. */
  lemma NormalFixpoint(a: HybridAnalysis)
    requires IsNormal(a)
    ensures Normal(a) == a
  {
    hide FirstWins;
    assert Keys(a.rationale, Self) == a.rationale;
    FirstWinsFixpoint({}, a.rationale, Self);
    forall i | 0 <= i < |a.suggested| ensures NormalSuggested(a.suggested[i]) == a.suggested[i] {
      assert a.suggested[i] in a.suggested;
    }
    assert NormalAll(a.suggested) == a.suggested;
    FirstWinsFixpoint({}, a.suggested, SuggestedName);
  }

  lemma NormalIdempotent(a: HybridAnalysis)
    ensures Normal(Normal(a)) == Normal(a)
  {
    NormalIsNormal(a);
    NormalFixpoint(Normal(a));
  }

  /** Being in normal form is exactly coming back unchanged. */
  lemma ReturnsUnchangedIff(a: HybridAnalysis)
    ensures Normal(a) == a <==> IsNormal(a)
  {
    NormalIsNormal(a);
    if IsNormal(a) {
      NormalFixpoint(a);
    }
  }
}
