/** Which creates are the same create: what a dedupe key says of a request, and what reviews
    two requests lead to. */
module DedupeKeys {
  import opened Types
  import opened Text
  import opened Pipeline
  import opened Lifecycle
  import opened LifecycleFacts
  import opened Service
  import opened Store
  import opened ServiceRuns

  // ---------- the key of a request ----------

  lemma LowerColon(s: string)
    ensures ':' in Lower(s) <==> ':' in s
  {
    var l := Lower(s);
    assert forall i :: 0 <= i < |s| ==> (l[i] == ':' <==> s[i] == ':');
    if ':' in s {
      var i :| 0 <= i < |s| && s[i] == ':';
      assert l[i] == ':';
    }
  }

  lemma LongerHasColon(a: string, x: string, b: string, y: string)
    requires a + ":" + x == b + ":" + y
    ensures |a| < |b| ==> ':' in b
  {
    if |a| < |b| {
      assert (a + ":" + x)[|a|] == ':' && (b + ":" + y)[|a|] == b[|a|];
    }
  }

  /** Text before the first colon, and text after it. */
  lemma SplitAtColon(a: string, x: string, b: string, y: string)
    requires ':' !in a && ':' !in b && a + ":" + x == b + ":" + y
    ensures a == b && x == y
  {
    var s := a + ":" + x;
    LongerHasColon(a, x, b, y);
    LongerHasColon(b, y, a, x);
    assert a == s[..|a|] && b == s[..|b|];
    assert x == s[|a| + 1..] && y == s[|b| + 1..];
  }

  lemma LowerParts(a: string, b: string, c: string, d: string)
    ensures Lower(a + ":" + b + ":" + c + ":" + d) == Lower(a) + ":" + (Lower(b) + ":" + (Lower(c) + ":" + Lower(d)))
  {
    assert Lower(":") == ":";
    assert a + ":" + b + ":" + c + ":" + d == a + (":" + (b + (":" + (c + (":" + d)))));
    LowerConcat(a, ":" + (b + (":" + (c + (":" + d)))));
    LowerConcat(":", b + (":" + (c + (":" + d))));
    LowerConcat(b, ":" + (c + (":" + d)));
    LowerConcat(":", c + (":" + d));
    LowerConcat(c, ":" + d);
    LowerConcat(":", d);
  }

  /** A request without a key of its own gets one derived from what it is about. */
  predicate Derives(req: Request) {
    req.dedupeKey == "" && req.sourceId != "" && req.environment != ""
  }

  /** Same source, same commit, same environment, up to case. */
  predicate SameTarget(a: Request, b: Request) {
    && Lower(a.sourceType) == Lower(b.sourceType) && Lower(a.sourceId) == Lower(b.sourceId)
    && Lower(a.payload.headCommit) == Lower(b.payload.headCommit) && Lower(a.environment) == Lower(b.environment)
  }

  predicate NoColons(req: Request) {
    ':' !in req.sourceType && ':' !in req.sourceId && ':' !in req.payload.headCommit
  }

  /** A key given is the key; without one there is no key exactly when the source id or the
      environment is missing. */
  lemma KeyOf(req: Request)
    ensures req.dedupeKey != "" ==> DedupeKeyFor(req) == req.dedupeKey
    ensures DedupeKeyFor(req) == "" <==> req.dedupeKey == "" && (req.sourceId == "" || req.environment == "")
  {
    if Derives(req) {
      LowerParts(req.sourceType, req.sourceId, req.payload.headCommit, req.environment);
    }
  }

  /** Two derived keys are the same exactly when the requests are about the same target. */
  lemma DerivedKeysAgreeIff(a: Request, b: Request)
    requires Derives(a) && Derives(b) && NoColons(a) && NoColons(b)
    ensures DedupeKeyFor(a) == DedupeKeyFor(b) <==> SameTarget(a, b)
  {
    hide Lower;
    LowerParts(a.sourceType, a.sourceId, a.payload.headCommit, a.environment);
    LowerParts(b.sourceType, b.sourceId, b.payload.headCommit, b.environment);
    LowerColon(a.sourceType);
    LowerColon(b.sourceType);
    LowerColon(a.sourceId);
    LowerColon(b.sourceId);
    LowerColon(a.payload.headCommit);
    LowerColon(b.payload.headCommit);
    if DedupeKeyFor(a) == DedupeKeyFor(b) {
      var a3 := Lower(a.payload.headCommit) + ":" + Lower(a.environment);
      var b3 := Lower(b.payload.headCommit) + ":" + Lower(b.environment);
      SplitAtColon(Lower(a.sourceType), Lower(a.sourceId) + ":" + a3, Lower(b.sourceType),
                   Lower(b.sourceId) + ":" + b3);
      SplitAtColon(Lower(a.sourceId), a3, Lower(b.sourceId), b3);
      SplitAtColon(Lower(a.payload.headCommit), Lower(a.environment), Lower(b.payload.headCommit),
                   Lower(b.environment));
    }
  }

  /** A colon inside a part can make two different targets share a key. */
  lemma ColonsConfuse()
    ensures var payload := Payload("", "", "", "c", "", map[]);
            var a := Request("t", "x:y", "", "", "prod", "", "", "", payload.(headCommit := "z"));
            var b := Request("t", "x", "", "", "prod", "", "", "", payload.(headCommit := "y:z"));
            !SameTarget(a, b) && DedupeKeyFor(a) == DedupeKeyFor(b) && DedupeKeyFor(a) != ""
  {
    var payload := Payload("", "", "", "c", "", map[]);
    var a := Request("t", "x:y", "", "", "prod", "", "", "", payload.(headCommit := "z"));
    var b := Request("t", "x", "", "", "prod", "", "", "", payload.(headCommit := "y:z"));
    assert "t" + ":" + "x:y" + ":" + "z" + ":" + "prod" == "t" + ":" + "x" + ":" + "y:z" + ":" + "prod";
    assert |Lower(a.sourceId)| != |Lower(b.sourceId)|;
  }

  // ---------- the review a create leads to ----------

  /** What a create finds or makes in a world the invariant holds in. */
  lemma CreateLeadsTo(cfg: Config, clock: Clock, w: World, req: Request)
    requires Monotone(clock) && Inv(clock, w)
    ensures var (w', resp) := CreateStep(cfg, clock, w, req);
            && resp.reviewId in w'.records && w'.records[resp.reviewId].review.dedupeKey == DedupeKeyFor(req)
            && resp.taskId == w'.records[resp.reviewId].taskId
            && resp.status == w'.records[resp.reviewId].review.status
            && (DedupeKeyFor(req) == "" ==> resp.reviewId !in w.records)
            && (resp.reviewId in w.records ==> w' == w)
  {
    hide Build, Assess, DedupeKeyFor, Inv, RecordIds, Sound;
    CreateStores(cfg, clock, w, req);
    if DedupeKeyFor(req) == "" || Lookup(w.records, w.index, DedupeKeyFor(req)).None? {
      CreateIsNew(cfg, clock, w, req);
    }
  }

  lemma CreateIsNew(cfg: Config, clock: Clock, w: World, req: Request)
    requires Monotone(clock) && Inv(clock, w)
    ensures Build(cfg, req, clock, w.ticks, NextId, w.counter).review.reviewId !in w.records
  {
    hide Build, Assess, DedupeKeyFor, Inv, Sound, MadeFrom;
    var r := Build(cfg, req, clock, w.ticks, NextId, w.counter);
    BuildDraws(cfg, req, clock, w.ticks, NextId, w.counter);
    FreshNames(r, w.counter);
    ReviewIdListed(r);
    forall id | id in w.records ensures id != r.review.reviewId {
      RecordHolds(clock, w, id);
      ReviewIdListed(w.records[id]);
      IssuedNames(w.records[id], w.counter);
    }
  }

  /** After any run, two creates with anything in between get the same review exactly when
      they have the same nonempty key. */
  lemma SameReviewIff(cfg: Config, clock: Clock, ops: seq<Op>, first: Request, between: seq<Op>, second: Request)
    requires Monotone(clock)
    ensures var (w, resp) := CreateStep(cfg, clock, Run(cfg, clock, EMPTY_WORLD, ops), first);
            var resp' := CreateStep(cfg, clock, Run(cfg, clock, w, between), second).1;
            resp'.reviewId == resp.reviewId <==>
                DedupeKeyFor(first) != "" && DedupeKeyFor(first) == DedupeKeyFor(second)
  {
    hide CreateStep, Inv, DedupeKeyFor, Sound, RecordIds;
    var before := Run(cfg, clock, EMPTY_WORLD, ops);
    var upTo := ops + [CreateOp(first)];
    assert upTo[..|upTo| - 1] == ops;
    var w, id := CreateStep(cfg, clock, before, first).0, CreateStep(cfg, clock, before, first).1.reviewId;
    var all := upTo + between;
    RunKeepsInv(cfg, clock, ops);
    CreateLeadsTo(cfg, clock, before, first);
    RunJoins(cfg, clock, EMPTY_WORLD, upTo, between);
    RunKeepsInv(cfg, clock, all);
    RunAppends(cfg, clock, all, |upTo|);
    assert all[..|upTo|] == upTo;
    var later := Run(cfg, clock, w, between);
    assert Extends(later.records[id], w.records[id]);
    CreateLeadsTo(cfg, clock, later, second);
    CreateKeepsInv(cfg, clock, later, second);
    if DedupeKeyFor(first) != "" && DedupeKeyFor(first) == DedupeKeyFor(second) {
      RepeatedCreateAnyTime(cfg, clock, ops, first, between, second);
    } else {
      var (w', resp') := CreateStep(cfg, clock, later, second);
      assert Extends(w'.records[id], later.records[id]);
    }
  }

  /** In particular: without keys of their own, creates for different commits of the same
      source get different reviews. */
  lemma NewCommitNewReview(cfg: Config, clock: Clock, ops: seq<Op>, first: Request, between: seq<Op>, second: Request)
    requires Monotone(clock) && Derives(first) && Derives(second) && NoColons(first) && NoColons(second)
    requires Lower(first.payload.headCommit) != Lower(second.payload.headCommit)
    ensures var (w, resp) := CreateStep(cfg, clock, Run(cfg, clock, EMPTY_WORLD, ops), first);
            CreateStep(cfg, clock, Run(cfg, clock, w, between), second).1.reviewId != resp.reviewId
  {
    hide CreateStep, Run, DedupeKeyFor, Lower;
    DerivedKeysAgreeIff(first, second);
    SameReviewIff(cfg, clock, ops, first, between, second);
  }
}
