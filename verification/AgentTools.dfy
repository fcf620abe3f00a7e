/** The read-only tools an agent may call while it analyses a change. */
module AgentTools {
  import opened Wrappers
  import opened Types
  import opened Text
  import opened MetadataReader
  import opened Pipeline

  /** A call as the model sends it: `kind` is its type, `arguments` a JSON text. */
  datatype ToolCall = ToolCall(id: string, kind: string, name: string, arguments: string)

  datatype Message = Message(role: string, content: string, toolCallId: string, name: string, toolCalls: seq<ToolCall>)

  /** What a tool reports, before it is written as JSON. */
  datatype ToolResult =
    | BundleView(bundle: Bundle)
    | UnderstandingView(understanding: Understanding)
    | EvidenceView(items: seq<EvidenceItem>)
    | ItemView(item: EvidenceItem)
    | SignalsView(signals: seq<RiskSignal>)

  datatype ToolError =
    | UnsupportedTool | BadArguments(message: string) | MissingEvidenceId | EvidenceNotFound
    | NotWritten(message: string)

  /** JSON as the tools use it: writing a result, reading an evidence id from arguments. */
  datatype Json = Json(write: ToolResult -> Result<string, string>, readId: string -> Result<string, string>)

  const TOOLS: seq<string> :=
    ["get_change_bundle", "get_change_understanding", "list_evidence", "get_evidence_by_id", "list_rule_signals"]

  // ---------- what leaves the system ----------

  /** The allowed metadata of each source that has any, under the source's key. */
  function ContextViews(contexts: seq<ContextSource>, m: Metadata): Metadata {
    if contexts == [] then map[]
    else
      var r := ContextViews(contexts[..|contexts| - 1], m);
      var c := contexts[|contexts| - 1];
      if Allowed(m, c) == map[] then r else r[c.key := Obj(Allowed(m, c))]
  }

  function PlainTexts(m: Metadata): Metadata {
    Compact(map["change_window" := Str(StringAt(m, "change_window")), "ticket" := Str(StringAt(m, "ticket"))])
  }

  function SafeMetadata(contexts: seq<ContextSource>, m: Metadata): Metadata {
    PlainTexts(m) + ContextViews(contexts, m)
  }

  ghost predicate IsPlainText(m: Metadata, key: string, v: Value) {
    (key == "change_window" || key == "ticket") && StringAt(m, key) != "" && v == Str(StringAt(m, key))
  }

  ghost predicate IsContextView(contexts: seq<ContextSource>, m: Metadata, key: string, v: Value) {
    exists c :: c in contexts && c.key == key && Allowed(m, c) != map[] && v == Obj(Allowed(m, c))
  }

  /** Redaction: a key of the request's metadata reaches the model only if it is one of the
      two plain texts or an external source, and then only with what that source allows. */
  lemma OnlySafeMetadata(contexts: seq<ContextSource>, m: Metadata, key: string)
    requires key in SafeMetadata(contexts, m)
    ensures var v := SafeMetadata(contexts, m)[key];
            IsPlainText(m, key, v) || IsContextView(contexts, m, key, v)
  {
    hide Allowed, PlainTexts, IsPlainText, IsContextView, ContextViews;
    if key in ContextViews(contexts, m) {
      ContextViewOf(contexts, m, key);
    } else {
      PlainTextOf(m, key);
    }
  }

  lemma PlainTextOf(m: Metadata, key: string)
    requires key in PlainTexts(m)
    ensures IsPlainText(m, key, PlainTexts(m)[key])
  {
    hide StringAt;
    var picked := map["change_window" := Str(StringAt(m, "change_window")), "ticket" := Str(StringAt(m, "ticket"))];
    assert "change_window"[0] != "ticket"[0];
    TextIsTrimmed(m, "change_window");
    TextIsTrimmed(m, "ticket");
    CompactedEntry(picked, key);
  }

  lemma CompactedEntry(m: Metadata, key: string)
    requires key in Compact(m) && (forall k :: k in m && m[k].Str? ==> IsTrimmed(m[k].s))
    ensures key in m && m[key].Str? && m[key].s != "" && Compact(m)[key] == m[key]
  {
    hide Trim;
  }

  lemma {:induction false} ContextViewOf(contexts: seq<ContextSource>, m: Metadata, key: string)
    requires key in ContextViews(contexts, m)
    ensures IsContextView(contexts, m, key, ContextViews(contexts, m)[key])
  {
    hide Allowed;
    var init, c := contexts[..|contexts| - 1], contexts[|contexts| - 1];
    if c.key == key && Allowed(m, c) != map[] {
      assert c in contexts;
    } else {
      ContextViewOf(init, m, key);
    }
  }

  // ---------- dispatch ----------

  /** Signal identifiers of a single tool call. */
  function DashId(prefix: string, n: nat): string { "sig-" + Decimal(n + 1) }

  function FindItem(items: seq<EvidenceItem>, id: string): Option<EvidenceItem> {
    if items == [] then None
    else if items[0].evidenceId == id then Some(items[0])
    else FindItem(items[1..], id)
  }

  /** The result of `get_evidence_by_id`; absent arguments stand for an empty object. */
  function ItemFor(json: Json, items: seq<EvidenceItem>, arguments: string): Result<ToolResult, ToolError> {
    match json.readId(if arguments == "" then "{}" else arguments)
    case Failure(message) => Failure(BadArguments(message))
    case Success(text) =>
      var id := Trim(text);
      if id == "" then Failure(MissingEvidenceId)
      else match FindItem(items, id) case None => Failure(EvidenceNotFound) case Some(item) => Success(ItemView(item))
  }

  function Look(cfg: Config, json: Json, input: AnalyzerInput, name: string,
                arguments: string): Result<ToolResult, ToolError> {
    if name == "get_change_bundle" then
      Success(BundleView(input.bundle.(metadata := SafeMetadata(cfg.contexts, input.bundle.metadata))))
    else if name == "get_change_understanding" then Success(UnderstandingView(input.understanding))
    else if name == "list_evidence" then Success(EvidenceView(input.evidence))
    else if name == "get_evidence_by_id" then ItemFor(json, input.evidence, arguments)
    else if name == "list_rule_signals" then
      Success(SignalsView(RuleSignals(cfg.explain, input.bundle, input.understanding, input.evidence, DashId, 0)))
    else Failure(UnsupportedTool)
  }

  function Execute(cfg: Config, json: Json, input: AnalyzerInput, call: ToolCall): Result<string, ToolError> {
    match Look(cfg, json, input, call.name, call.arguments)
    case Failure(e) => Failure(e)
    case Success(result) =>
      match json.write(result) case Failure(message) => Failure(NotWritten(message)) case Success(text) => Success(text)
  }

  /** A tool is supported exactly when it is offered. */
  lemma SupportedIffOffered(cfg: Config, json: Json, input: AnalyzerInput, name: string, arguments: string)
    ensures Look(cfg, json, input, name, arguments) == Failure(UnsupportedTool) <==> name !in TOOLS
  {
    hide SafeMetadata, RuleSignals, FindItem, Trim;
    if name in TOOLS {
      var i :| 0 <= i < 5 && TOOLS[i] == name;
      assert Look(cfg, json, input, TOOLS[i], arguments) != Failure(UnsupportedTool);
    } else {
      assert TOOLS[0] in TOOLS && TOOLS[1] in TOOLS && TOOLS[2] in TOOLS && TOOLS[3] in TOOLS && TOOLS[4] in TOOLS;
    }
  }

  ghost predicate FirstWith(items: seq<EvidenceItem>, id: string, i: int) {
    && 0 <= i < |items| && items[i].evidenceId == id
    && forall j :: 0 <= j < i ==> items[j].evidenceId != id
  }

  /** Looking evidence up by id: the first item with that id, and nothing only if no item has it. */
  lemma {:induction false} FindItemFirst(items: seq<EvidenceItem>, id: string)
    ensures FindItem(items, id) == None <==> forall item :: item in items ==> item.evidenceId != id
    ensures FindItem(items, id).Some? ==> exists i :: FirstWith(items, id, i) && items[i] == FindItem(items, id).value
  {
    if items == [] {
    } else if items[0].evidenceId == id {
      assert FirstWith(items, id, 0);
    } else {
      var rest := items[1..];
      FindItemFirst(rest, id);
      assert items == [items[0]] + rest;
      if FindItem(items, id).Some? {
        var i :| FirstWith(rest, id, i) && rest[i] == FindItem(rest, id).value;
        assert FirstWith(items, id, i + 1);
      }
    }
  }

  // ---------- what each tool answers ----------

  lemma PlainTextThere(m: Metadata, key: string)
    requires key == "change_window" || key == "ticket"
    ensures StringAt(m, key) != "" ==> key in PlainTexts(m) && PlainTexts(m)[key] == Str(StringAt(m, key))
  {
    hide StringAt, Trim;
    TextIsTrimmed(m, key);
    assert "change_window"[0] != "ticket"[0];
  }

  lemma {:induction false} ContextViewThere(contexts: seq<ContextSource>, m: Metadata, c: ContextSource)
    requires c in contexts && Allowed(m, c) != map[]
    ensures c.key in ContextViews(contexts, m)
  {
    hide Allowed;
    var init, last := contexts[..|contexts| - 1], contexts[|contexts| - 1];
    assert contexts == init + [last];
    if c != last {
      ContextViewThere(init, m, c);
    }
  }

  /** Everything that may be shown is shown. */
  lemma AllSafeMetadata(contexts: seq<ContextSource>, m: Metadata, key: string)
    ensures (key == "change_window" || key == "ticket") && StringAt(m, key) != "" ==> key in SafeMetadata(contexts, m)
    ensures (exists c :: c in contexts && c.key == key && Allowed(m, c) != map[]) ==> key in SafeMetadata(contexts, m)
  {
    hide StringAt, Allowed, PlainTexts, ContextViews;
    if key == "change_window" || key == "ticket" {
      PlainTextThere(m, key);
    }
    if c :| c in contexts && c.key == key && Allowed(m, c) != map[] {
      ContextViewThere(contexts, m, c);
    }
  }

  /** The keys of the request's metadata that say something the model may see. */
  ghost predicate MayShow(contexts: seq<ContextSource>, m: Metadata, key: string) {
    || ((key == "change_window" || key == "ticket") && StringAt(m, key) != "")
    || exists c :: c in contexts && c.key == key && Allowed(m, c) != map[]
  }

  /** A view of a bundle: the bundle itself, but for metadata that holds exactly what may be
      seen, each key with its trimmed text or with what its source allows. */
  ghost predicate SafeView(contexts: seq<ContextSource>, b: Bundle, view: Bundle) {
    && view == b.(metadata := view.metadata)
    && (forall key :: key in view.metadata <==> MayShow(contexts, b.metadata, key))
    && forall key :: key in view.metadata ==>
         IsPlainText(b.metadata, key, view.metadata[key])
             || IsContextView(contexts, b.metadata, key, view.metadata[key])
  }

  lemma ViewIsSafe(contexts: seq<ContextSource>, b: Bundle)
    ensures SafeView(contexts, b, b.(metadata := SafeMetadata(contexts, b.metadata)))
  {
    hide StringAt, Allowed, SafeMetadata;
    forall key ensures key in SafeMetadata(contexts, b.metadata) <==> MayShow(contexts, b.metadata, key) {
      AllSafeMetadata(contexts, b.metadata, key);
      if key in SafeMetadata(contexts, b.metadata) {
        OnlySafeMetadata(contexts, b.metadata, key);
      }
    }
    forall key | key in SafeMetadata(contexts, b.metadata)
      ensures var v := SafeMetadata(contexts, b.metadata)[key];
              IsPlainText(b.metadata, key, v) || IsContextView(contexts, b.metadata, key, v)
    {
      OnlySafeMetadata(contexts, b.metadata, key);
    }
  }

  /** The metadata of a request reaches the model in no other way than as a safe view. */
  lemma BundleToolAnswers(cfg: Config, json: Json, input: AnalyzerInput, arguments: string)
    ensures var shown := Look(cfg, json, input, "get_change_bundle", arguments);
            shown.Success? && shown.value.BundleView? && SafeView(cfg.contexts, input.bundle, shown.value.bundle)
  {
    hide SafeMetadata, SafeView;
    ViewIsSafe(cfg.contexts, input.bundle);
  }

  /** The understanding and the evidence are shown as they are. */
  lemma InputToolsAnswer(cfg: Config, json: Json, input: AnalyzerInput, arguments: string)
    ensures Look(cfg, json, input, "get_change_understanding", arguments)
            == Success(UnderstandingView(input.understanding))
    ensures Look(cfg, json, input, "list_evidence", arguments) == Success(EvidenceView(input.evidence))
  {
    hide SafeMetadata, RuleSignals, ItemFor;
    assert "get_change_understanding"[11] != "get_change_bundle"[11];
    assert "list_evidence"[0] != "get_change_bundle"[0];
  }

  /** What the arguments of `get_evidence_by_id` ask for. */
  function AskedFor(json: Json, arguments: string): Result<string, string> {
    json.readId(if arguments != "" then arguments else "{}")
  }

  /** Asking for one item: the first one whose id is the trimmed text asked for; otherwise the
      error says whether the arguments are unreadable, name nothing, or name no item. */
  lemma ItemToolAnswers(cfg: Config, json: Json, input: AnalyzerInput, arguments: string)
    ensures var shown, asked := Look(cfg, json, input, "get_evidence_by_id", arguments), AskedFor(json, arguments);
            && (asked.Failure? ==> shown == Failure(BadArguments(asked.error)))
            && (asked.Success? && Trim(asked.value) == "" ==> shown == Failure(MissingEvidenceId))
            && (asked.Success? && Trim(asked.value) != "" ==>
                  && (shown == Failure(EvidenceNotFound)
                      <==> forall item :: item in input.evidence ==> item.evidenceId != Trim(asked.value))
                  && (shown != Failure(EvidenceNotFound) ==>
                        exists i :: FirstWith(input.evidence, Trim(asked.value), i)
                                    && shown == Success(ItemView(input.evidence[i]))))
  {
    hide SafeMetadata, RuleSignals, FindItem, Trim, FirstWith;
    assert "get_evidence_by_id"[4] != "get_change_bundle"[4] && "get_evidence_by_id"[0] != "list_evidence"[0];
    assert "get_evidence_by_id"[4] != "get_change_understanding"[4];
    var asked := AskedFor(json, arguments);
    if asked.Success? && Trim(asked.value) != "" {
      FindItemFirst(input.evidence, Trim(asked.value));
    }
  }

  /** A tool message carries what the tool answers, written as JSON, or the call fails. */
  lemma ExecuteIff(cfg: Config, json: Json, input: AnalyzerInput, call: ToolCall, text: string)
    ensures Execute(cfg, json, input, call) == Success(text) <==>
            var shown := Look(cfg, json, input, call.name, call.arguments);
            shown.Success? && json.write(shown.value) == Success(text)
  {
    hide Look;
  }
}
