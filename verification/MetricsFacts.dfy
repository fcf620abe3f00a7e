/** What the figures mean: which reviews they count, in reachable worlds and after feedback. */
module MetricsFacts {
  import opened Wrappers
  import opened Types
  import opened Pipeline
  import opened ScoringFacts
  import opened Lifecycle
  import opened LifecycleFacts
  import opened ReviewFacts
  import opened Service
  import opened ServiceRuns
  import opened Metrics

  // ---------- windows and rates ----------

  lemma DayBounds(at: Time, day: int)
    ensures day * DAY <= at <= day * DAY + DAY - 1 <==> at / DAY == day
  {
    assert at == at / DAY * DAY + at % DAY;
    if at / DAY < day {
      assert at / DAY * DAY + DAY <= day * DAY;
    } else if at / DAY > day {
      assert day * DAY + DAY <= at / DAY * DAY;
    }
  }

  /** A range of days covers exactly the reviews created on one of these days, for the service
      asked for or for all. */
  lemma CoversIff(r: Record, first: int, last: int, service: string)
    ensures Covers(Days(first, last, service), r) <==>
            first <= r.review.createdAt / DAY <= last && (service == "" || service == r.review.service)
  {
    var at := r.review.createdAt;
    var day := at / DAY;
    DayBounds(at, day);
    if day < first {
      assert day * DAY + DAY <= first * DAY;
    } else {
      assert first * DAY <= day * DAY;
    }
    if day > last {
      assert last * DAY + DAY <= day * DAY;
    } else {
      assert day * DAY <= last * DAY;
    }
  }

  lemma ShareIs(part: nat, whole: nat, otherwise: real)
    ensures whole > 0 ==> Share(part, whole, otherwise) * whole as real == part as real
    ensures whole == 0 ==> Share(part, whole, otherwise) == otherwise
  {
  }

  /** Each rate is the part it names of the whole it names; without a whole it is zero, or
      0.08 for false positives. */
  lemma FiguresAre(records: map<string, Record>, w: Window)
    ensures var f, n := FiguresOf(records, w), Count(records, Reviewed, w);
            var known := Count(records, Incident, w) + Count(records, NoIncident, w);
            && f.reviewCount == n
            && f.highRiskRecall * n as real == Count(records, HighRisk, w) as real
            && f.overrideRate * n as real == Count(records, OverriddenReview, w) as real
            && f.falsePositiveRate * known as real == Count(records, NoIncident, w) as real
            && (n == 0 ==> f.highRiskRecall == 0.0 && f.overrideRate == 0.0)
            && (known == 0 ==> f.falsePositiveRate == 0.08)
  {
    hide Count, Share;
    var n, known := Count(records, Reviewed, w), Count(records, Incident, w) + Count(records, NoIncident, w);
    FiguresConserve(records, w);
    ShareIs(Count(records, HighRisk, w), n, 0.0);
    ShareIs(Count(records, OverriddenReview, w), n, 0.0);
    ShareIs(Count(records, NoIncident, w), known, 0.08);
  }

  // ---------- classes ----------

  /** Sound reviews are high-risk exactly from a score of 60, and count as overridden exactly
      when the last decision was to override. */
  lemma ClassesOfSound(r: Record, w: Window)
    requires Sound(r)
    ensures Belongs(HighRisk, w, r) <==> Covers(w, r) && r.review.score >= 60
    ensures Belongs(OverriddenReview, w, r) <==> Covers(w, r) && LastDecision(r) == Some("override")
    ensures Belongs(HighRisk, w, r) ==> r.review.humanReviewRequired
  {
    hide Grammar, DecisionsMatch, InOrder, RefsResolve, RecordIds, FloorHolds, Covers;
    StatusMeaning(r);
    BucketsMonotone(r.review.score, r.review.score);
    if r.decisions != [] {
      DecisionWords(LastDecision(r).value);
    }
  }

  /** ... so the figures of every reachable world count reviews that score at least 60, and
      reviews whose last decision is an override. */
  lemma RunClasses(cfg: Config, clock: Clock, ops: seq<Op>, id: string, w: Window)
    requires Monotone(clock) && id in Run(cfg, clock, EMPTY_WORLD, ops).records
    ensures var r := Run(cfg, clock, EMPTY_WORLD, ops).records[id];
            && (Belongs(HighRisk, w, r) <==> Covers(w, r) && r.review.score >= 60)
            && (Belongs(OverriddenReview, w, r) <==> Covers(w, r) && LastDecision(r) == Some("override"))
  {
    hide Sound, Belongs, Covers, LastDecision;
    RunKeepsInv(cfg, clock, ops);
    ClassesOfSound(Run(cfg, clock, EMPTY_WORLD, ops).records[id], w);
  }

  /** Feedback puts a review where it says: a flag moves it between the incident classes if it
      is high-risk, feedback without one moves nothing. */
  lemma FeedbackClasses(r: Record, req: EvaluationRequest, now: Time, w: Window)
    requires r.evaluation.Some?
    ensures var r' := Evaluate(r, req, now);
            && (Belongs(Reviewed, w, r') <==> Belongs(Reviewed, w, r))
            && (Belongs(HighRisk, w, r') <==> Belongs(HighRisk, w, r))
            && (Belongs(OverriddenReview, w, r') <==> Belongs(OverriddenReview, w, r))
            && (req.incidentFlag.None? ==>
                  && (Belongs(Incident, w, r') <==> Belongs(Incident, w, r))
                  && (Belongs(NoIncident, w, r') <==> Belongs(NoIncident, w, r)))
            && (req.incidentFlag.Some? ==>
                  && (Belongs(Incident, w, r') <==> Belongs(HighRisk, w, r) && req.incidentFlag.value)
                  && (Belongs(NoIncident, w, r') <==> Belongs(HighRisk, w, r) && !req.incidentFlag.value))
  {
    hide Evaluate;
    EvaluateTells(r, req, now);
  }

  /** Replacing one record moves each count by that record alone. */
  lemma CountAfter(records: map<string, Record>, id: string, r': Record, c: Class, w: Window)
    requires id in records
    ensures Count(records[id := r'], c, w) + (if Belongs(c, w, records[id]) then 1 else 0)
         == Count(records, c, w) + if Belongs(c, w, r') then 1 else 0
  {
    hide Belongs;
    var rest := records.Keys - {id};
    var after := records[id := r'];
    assert after.Keys == records.Keys && rest + {id} == records.Keys;
    ChosenStep(records, rest, id, c, w);
    ChosenStep(after, rest, id, c, w);
    assert Chosen(after, rest, c, w) == Chosen(records, rest, c, w);
  }
}
