/** Reading and writing loosely typed metadata. */
module MetadataReader {
  import opened Types
  import opened Text
  import opened Dedupe

  /** The metadata of an item; a nil map reads as an empty one. */
  function Entries(item: EvidenceItem): Metadata {
    match item.metadata case Some(m) => m case None => map[]
  }

  function Texts(m: map<string, string>): Metadata {
    map k | k in m :: Str(m[k])
  }

  /** What a value looks like after being written as JSON and read back. */
  function JsonForm(v: Value): Value {
    match v
    case StrList(strs) => List(seq(|strs|, i requires 0 <= i < |strs| => Str(strs[i])))
    case List(items) => List(seq(|items|, i requires 0 <= i < |items| => JsonForm(items[i])))
    case Obj(fields) => Obj(map k | k in fields :: JsonForm(fields[k]))
    case ObjList(objs) => List(seq(|objs|, i requires 0 <= i < |objs| => Obj(Texts(objs[i]))))
    case _ => v
  }

  function JsonMetadata(m: Metadata): Metadata {
    map k | k in m :: JsonForm(m[k])
  }

  function StringAt(m: Metadata, key: string): string {
    if key in m && m[key].Str? then Trim(m[key].s) else ""
  }

  lemma TextIsTrimmed(m: Metadata, key: string)
    ensures IsTrimmed(StringAt(m, key))
  {
    hide Trim;
  }

  /** The string elements of a decoded list, in order. */
  function Strings(items: seq<Value>): seq<string> {
    if items == [] then []
    else
      var r := Strings(items[..|items| - 1]);
      var x := items[|items| - 1];
      if x.Str? then r + [x.s] else r
  }

  function StringsAt(m: Metadata, key: string): seq<string> {
    if key !in m then []
    else match m[key]
      case StrList(strs) => FirstWins({}, strs, Self)
      case List(items) => FirstWins({}, Strings(items), Self)
      case _ => []
  }

  function NestedAt(m: Metadata, parent: string): Metadata {
    if parent in m && m[parent].Obj? then m[parent].fields else map[]
  }

  function BoolText(b: bool): string { if b then "true" else "false" }

  /** Only trimmed, nonempty texts survive compaction. */
  function Compact(m: Metadata): Metadata {
    map k | k in m && m[k].Str? && Trim(m[k].s) != "" :: Str(Trim(m[k].s))
  }

  /** The loop over the entries, taken in any order. */
  method CompactMap(m: Metadata) returns (out: Metadata)
    ensures out == Compact(m)
  {
    hide Trim;
    out := map[];
    var rest := m.Keys;
    while rest != {}
      invariant rest <= m.Keys
      invariant out == Compact(map k | k in m && k !in rest :: m[k])
      decreases |rest|
    {
      var key :| key in rest;
      rest := rest - {key};
      if m[key].Str? {
        var text := Trim(m[key].s);
        if text != "" {
          out := out[key := Str(text)];
        }
      }
    }
    assert (map k | k in m && k !in rest :: m[k]) == m;
  }

  /** A text that says something. */
  predicate IsText(v: Value) { v.Str? && !AllSpace(v.s) }

  /** Compaction keeps exactly the texts that say something, without the space around them. */
  lemma CompactIff(m: Metadata, k: string)
    ensures k in Compact(m) <==> k in m && IsText(m[k])
    ensures k in Compact(m) ==> Compact(m)[k] == Str(Trim(m[k].s))
  {
    hide Trim, AllSpace;
    if k in m && m[k].Str? {
      TrimmedAwayIff(m[k].s);
    }
  }

  lemma {:induction false} StringsOfStrs(strs: seq<string>)
    ensures Strings(seq(|strs|, i requires 0 <= i < |strs| => Str(strs[i]))) == strs
  {
    var items := seq(|strs|, i requires 0 <= i < |strs| => Str(strs[i]));
    if strs == [] {
    } else {
      var init := strs[..|strs| - 1];
      StringsOfStrs(init);
      assert items[..|items| - 1] == seq(|init|, i requires 0 <= i < |init| => Str(init[i]));
    }
  }

  lemma {:induction false} StringsOfJson(items: seq<Value>, js: seq<Value>)
    requires |js| == |items| && forall i :: 0 <= i < |items| ==> js[i] == JsonForm(items[i])
    ensures Strings(js) == Strings(items)
  {
    if items == [] {
    } else {
      StringsOfJson(items[..|items| - 1], js[..|js| - 1]);
    }
  }

  /** A list of texts reads the same before and after a trip through JSON. */
  lemma StringsSurviveJson(m: Metadata, key: string)
    ensures StringsAt(JsonMetadata(m), key) == StringsAt(m, key)
    ensures StringAt(JsonMetadata(m), key) == StringAt(m, key)
  {
    if key in m {
      match m[key] {
        case StrList(strs) => StringsOfStrs(strs);
        case List(items) => StringsOfJson(items, JsonForm(m[key]).items);
        case ObjList(objs) => NoStrings(JsonForm(m[key]).items);
        case _ =>
      }
    }
  }

  lemma {:induction false} NoStrings(items: seq<Value>)
    requires forall i :: 0 <= i < |items| ==> !items[i].Str?
    ensures Strings(items) == []
  {
    if items == [] {
    } else {
      NoStrings(items[..|items| - 1]);
    }
  }
}
