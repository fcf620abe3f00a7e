/** Aggregate figures over the stored reviews of a service in a range of days. */
module Metrics {
  import opened Wrappers
  import opened Types
  import opened Store

  const DAY: int := 24 * 60 * 60 * 1_000_000_000

  datatype Window = Window(start: Time, end: Time, service: string)

  /** From the first instant of one day to the last nanosecond of another, both days
      counted from the epoch; an empty service stands for all. */
  function Days(first: int, last: int, service: string): Window {
    Window(first * DAY, last * DAY + DAY - 1, service)
  }

  predicate Covers(w: Window, r: Record) {
    w.start <= r.review.createdAt <= w.end && (w.service == "" || r.review.service == w.service)
  }

  /** What is counted. */
  datatype Class = Reviewed | OverriddenReview | HighRisk | Incident | NoIncident

  predicate Belongs(c: Class, w: Window, r: Record) {
    && Covers(w, r)
    && match c
       case Reviewed => true
       case OverriddenReview => r.review.status == Overridden
       case HighRisk => IsHighRisk(r)
       case Incident => IsHighRisk(r) && Flag(r) == Some(true)
       case NoIncident => IsHighRisk(r) && Flag(r) == Some(false)
  }

  predicate IsHighRisk(r: Record) { r.review.riskLevel == HIGH || r.review.riskLevel == CRITICAL }

  function Flag(r: Record): Option<bool> {
    match r.evaluation case None => None case Some(e) => e.incidentFlag
  }

  function Chosen(records: map<string, Record>, ids: set<string>, c: Class, w: Window): set<string> {
    set id | id in ids && id in records && Belongs(c, w, records[id])
  }

  /** How many stored reviews belong to a class: a function of the stored records alone. */
  function Count(records: map<string, Record>, c: Class, w: Window): nat {
    |Chosen(records, records.Keys, c, w)|
  }

  datatype Figures = Figures(reviewCount: nat, highRiskRecall: real, falsePositiveRate: real, overrideRate: real,
                             p95LatencyMs: nat)

  function Share(part: nat, whole: nat, otherwise: real): real {
    if whole > 0 then part as real / whole as real else otherwise
  }

  function FiguresOf(records: map<string, Record>, w: Window): Figures {
    var n := Count(records, Reviewed, w);
    var known := Count(records, Incident, w) + Count(records, NoIncident, w);
    Figures(n, Share(Count(records, HighRisk, w), n, 0.0), Share(Count(records, NoIncident, w), known, 0.08),
            Share(Count(records, OverriddenReview, w), n, 0.0), 1800)
  }

  lemma ChosenStep(records: map<string, Record>, ids: set<string>, id: string, c: Class, w: Window)
    requires id in records && id !in ids
    ensures |Chosen(records, ids + {id}, c, w)|
         == |Chosen(records, ids, c, w)| + if Belongs(c, w, records[id]) then 1 else 0
  {
    hide Belongs;
    var before, after := Chosen(records, ids, c, w), Chosen(records, ids + {id}, c, w);
    assert after == if Belongs(c, w, records[id]) then before + {id} else before;
  }

  function SetOf(ids: seq<string>): set<string> { set i | 0 <= i < |ids| :: ids[i] }

  lemma OneIdEach(records: map<string, Record>, ids: seq<string>, out: seq<Record>)
    requires Lists(records, ids, out)
    ensures |ids| == |out|
  {
  }

  lemma NextCounts(records: map<string, Record>, ids: seq<string>, out: seq<Record>, i: nat, w: Window)
    requires Lists(records, ids, out) && i < |ids|
    ensures ids[i] in records && out[i] == records[ids[i]]
    ensures forall c :: |Chosen(records, SetOf(ids[..i + 1]), c, w)|
                     == |Chosen(records, SetOf(ids[..i]), c, w)| + if Belongs(c, w, records[ids[i]]) then 1 else 0
  {
    hide Belongs, Chosen;
    assert ids[..i + 1] == ids[..i] + [ids[i]];
    assert SetOf(ids[..i + 1]) == SetOf(ids[..i]) + {ids[i]} by {
      forall x ensures x in SetOf(ids[..i + 1]) <==> x in SetOf(ids[..i]) + {ids[i]} {
        if x in SetOf(ids[..i]) {
          var j :| 0 <= j < i && ids[..i][j] == x;
          assert ids[..i + 1][j] == x;
        }
        assert ids[..i + 1][i] == ids[i];
      }
    }
    assert ids[i] !in SetOf(ids[..i]);
    forall c ensures |Chosen(records, SetOf(ids[..i + 1]), c, w)|
                  == |Chosen(records, SetOf(ids[..i]), c, w)| + if Belongs(c, w, records[ids[i]]) then 1 else 0 {
      ChosenStep(records, SetOf(ids[..i]), ids[i], c, w);
    }
  }

  /** One pass over the listed reviews, in whatever order they come. `parseDay` reads a date. */
  method GetEvaluationMetrics(store: MemoryStore, parseDay: string -> Option<int>, from: string, to: string,
                              service: string)
    returns (res: Result<Figures, Error>)
    ensures parseDay(from).None? ==> res == Failure(OtherError("invalid from date"))
    ensures parseDay(from).Some? && parseDay(to).None? ==> res == Failure(OtherError("invalid to date"))
    ensures parseDay(from).Some? && parseDay(to).Some? ==>
              res == Success(FiguresOf(store.records, Days(parseDay(from).value, parseDay(to).value, service)))
  {
    hide Chosen, SetOf, Lists;
    var first := parseDay(from);
    if first.None? {
      return Failure(OtherError("invalid from date"));
    }
    var last := parseDay(to);
    if last.None? {
      return Failure(OtherError("invalid to date"));
    }
    var start := first.value * DAY;
    var end := last.value * DAY + DAY - 1;
    ghost var w := Days(first.value, last.value, service);

    var records := store.List();
    ghost var m := store.records;
    ghost var ids :| Lists(m, ids, records);
    OneIdEach(m, ids, records);
    var count, overrides, highRisk, withIncident, withoutIncident := 0, 0, 0, 0, 0;
    NoneChosen(m, w);
    for i := 0 to |records|
      invariant count == |Chosen(m, SetOf(ids[..i]), Reviewed, w)|
      invariant overrides == |Chosen(m, SetOf(ids[..i]), OverriddenReview, w)|
      invariant highRisk == |Chosen(m, SetOf(ids[..i]), HighRisk, w)|
      invariant withIncident == |Chosen(m, SetOf(ids[..i]), Incident, w)|
      invariant withoutIncident == |Chosen(m, SetOf(ids[..i]), NoIncident, w)|
    {
      NextCounts(m, ids, records, i, w);
      var r := records[i];
      if r.review.createdAt < start || r.review.createdAt > end {
        continue;
      }
      if service != "" && r.review.service != service {
        continue;
      }
      count := count + 1;
      if r.review.status == Overridden {
        overrides := overrides + 1;
      }
      if r.review.riskLevel == HIGH || r.review.riskLevel == CRITICAL {
        highRisk := highRisk + 1;
        if r.evaluation.Some? && r.evaluation.value.incidentFlag.Some? {
          if r.evaluation.value.incidentFlag.value {
            withIncident := withIncident + 1;
          } else {
            withoutIncident := withoutIncident + 1;
          }
        }
      }
    }
    AllChosen(m, ids, records);

    var overrideRate, highRiskRecall, falsePositiveRate := 0.0, 0.0, 0.08;
    if count > 0 {
      overrideRate := overrides as real / count as real;
      highRiskRecall := highRisk as real / count as real;
    }
    if withIncident + withoutIncident > 0 {
      falsePositiveRate := withoutIncident as real / (withIncident + withoutIncident) as real;
    }
    res := Success(Figures(count, highRiskRecall, falsePositiveRate, overrideRate, 1800));
  }

  lemma NoneChosen(records: map<string, Record>, w: Window)
    ensures forall c :: Chosen(records, SetOf([]), c, w) == {}
  {
    hide Belongs;
  }

  lemma AllChosen(records: map<string, Record>, ids: seq<string>, out: seq<Record>)
    requires Lists(records, ids, out)
    ensures SetOf(ids[..|ids|]) == records.Keys
  {
    assert ids[..|ids|] == ids;
  }

  // ---------- conservation ----------

  lemma FewerChosen(records: map<string, Record>, c: Class, d: Class, w: Window)
    requires forall r :: Belongs(c, w, r) ==> Belongs(d, w, r)
    ensures Count(records, c, w) <= Count(records, d, w)
  {
    hide Belongs;
    Smaller(Chosen(records, records.Keys, c, w), Chosen(records, records.Keys, d, w));
  }

  lemma Smaller(a: set<string>, b: set<string>)
    requires a <= b
    ensures |a| <= |b|
  {
    assert b == a + (b - a);
  }

  lemma ShareInRange(part: nat, whole: nat, otherwise: real)
    requires part <= whole && 0.0 <= otherwise <= 1.0
    ensures 0.0 <= Share(part, whole, otherwise) <= 1.0
  {
    if whole > 0 {
      var p, w := part as real, whole as real;
      assert p / w * w == p;
      assert p <= w ==> p / w <= 1.0;
    }
  }

  /** Every high-risk review with a known outcome is counted once, among the high-risk ones,
      and these among all; so every rate is a rate. */
  lemma FiguresConserve(records: map<string, Record>, w: Window)
    ensures Count(records, Incident, w) + Count(records, NoIncident, w)
            <= Count(records, HighRisk, w) <= Count(records, Reviewed, w)
    ensures Count(records, OverriddenReview, w) <= Count(records, Reviewed, w)
    ensures var f := FiguresOf(records, w);
            0.0 <= f.highRiskRecall <= 1.0 && 0.0 <= f.falsePositiveRate <= 1.0 && 0.0 <= f.overrideRate <= 1.0
  {
    hide Share, Covers, IsHighRisk, Flag, Count;
    FewerChosen(records, HighRisk, Reviewed, w);
    FewerChosen(records, OverriddenReview, Reviewed, w);
    KnownAmongHighRisk(records, w);
    var n := Count(records, Reviewed, w);
    var no, known := Count(records, NoIncident, w), Count(records, Incident, w) + Count(records, NoIncident, w);
    ShareInRange(Count(records, HighRisk, w), n, 0.0);
    ShareInRange(Count(records, OverriddenReview, w), n, 0.0);
    ShareInRange(no, known, 0.08);
  }

  lemma KnownAmongHighRisk(records: map<string, Record>, w: Window)
    ensures Count(records, Incident, w) + Count(records, NoIncident, w) <= Count(records, HighRisk, w)
  {
    hide Covers, IsHighRisk, Flag;
    var a, b := Chosen(records, records.Keys, Incident, w), Chosen(records, records.Keys, NoIncident, w);
    assert a !! b;
    assert |a + b| == |a| + |b|;
    Smaller(a + b, Chosen(records, records.Keys, HighRisk, w));
  }

  /** Adjacent ranges of days add up: no review is lost or counted twice at the boundary. */
  lemma WindowsAdd(records: map<string, Record>, c: Class, first: int, mid: int, last: int, service: string)
    requires first <= mid + 1 && mid <= last
    ensures Count(records, c, Days(first, last, service))
         == Count(records, c, Days(first, mid, service)) + Count(records, c, Days(mid + 1, last, service))
  {
    hide IsHighRisk, Flag;
    var whole, left, right := Days(first, last, service), Days(first, mid, service), Days(mid + 1, last, service);
    assert right.start == left.end + 1;
    assert first * DAY <= right.start && left.end <= last * DAY + DAY - 1;
    forall r ensures Belongs(c, whole, r) <==> Belongs(c, left, r) || Belongs(c, right, r)
             ensures !(Belongs(c, left, r) && Belongs(c, right, r)) {
    }
    var a, b := Chosen(records, records.Keys, c, left), Chosen(records, records.Keys, c, right);
    assert a !! b;
    assert Chosen(records, records.Keys, c, whole) == a + b;
  }
}
