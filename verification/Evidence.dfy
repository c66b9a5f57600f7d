// Replaying raw observations into the summary that decisions use.
module Evidence {
  import opened Arithmetic
  import opened Ranking
  import opened Wrappers

  import WorkloadPlan

  /** A JSON value where a number is expected. */
  datatype Num = Num(value: real) | NotFinite | Missing {
    predicate Finite(minimum: real) { Num? && value >= minimum }
  }

  datatype Checks = Checks(structured: bool, order: bool, activity: bool, source: bool, noForbidden: bool) {
    function Passed(): nat {
      Count(structured) + Count(order) + Count(activity) + Count(source) + Count(noForbidden)
    }
  }

  function Count(b: bool): nat { if b then 1 else 0 }

  datatype Quality = Quality(checks: Checks, score: real, pass: bool)

  datatype Performance = Performance(ttfa: Num, elapsed: Num, tokensPerSecond: Num, completionTokens: Num,
                                     stopped: bool)

  /** `answer` is what the semantic evaluator finds in the answer text; `quality` is stored beside it. */
  datatype Request = Request(number: int, success: bool, performance: Performance, answer: Checks, quality: Quality)

  datatype Aggregate = Aggregate(failed: int, tokensPerSecond: real)

  datatype Batch = Batch(repetition: int, concurrency: int, cache: WorkloadPlan.Cache, elapsed: Num,
                         requests: seq<Request>, aggregate: Aggregate)

  /** Which answer checks are mandatory. */
  datatype Policy = Policy(grounding: bool, citation: bool, structured: bool)

  /** One mode's observations and what they must match. */
  datatype Observed = Observed(repetitions: int, concurrency: int, cache: WorkloadPlan.Cache, batches: seq<Batch>)

  datatype Metric = Metric(min: real, p95: real, p99: real, max: real)

  datatype Summary = Summary(requests: nat, failed: int, ttfa: Option<Metric>, elapsed: Option<Metric>,
                             tokensPerSecond: Option<Metric>,
                             throughput: Option<Metric>, scoreMin: Option<real>, passes: nat)

  // ----- nearest-rank percentiles -----

  predicate Less(a: real, b: real) { a < b }

  function SortReals(s: seq<real>): seq<real> { SortBy(s, Less) }

  /** `ceil(pct / 100 * n)`, at least 1. */
  function RankOf(pct: nat, n: nat): nat { if Cdiv(pct * n, 100) < 1 then 1 else Cdiv(pct * n, 100) }

  lemma RankInside(pct: nat, n: nat)
    requires n > 0 && pct <= 100
    ensures 1 <= RankOf(pct, n) <= n
  {
    Product(n, pct, 100);
    CdivBounds(pct * n, 100);
  }

  lemma SortLength(s: seq<real>)
    ensures |SortReals(s)| == |s|
  {
    SortKeeps(s, Less);
    SameMembers(s, SortReals(s));
  }

  function Percentile(s: seq<real>, pct: nat): Option<real>
    requires pct <= 100
  {
    if s == [] then None
    else
      SortLength(s); RankInside(pct, |s|);
      Some(SortReals(s)[RankOf(pct, |s|) - 1])
  }

  function CountIf(p: real -> bool, s: seq<real>): nat {
    if s == [] then 0 else CountIf(p, s[..|s| - 1]) + Count(p(s[|s| - 1]))
  }

  /** A limit: what it accepts it also accepts of anything smaller. */
  ghost predicate Downward(p: real -> bool) { forall a, b :: a <= b && p(b) ==> p(a) }

  ghost predicate Sorted(s: seq<real>) { forall i, j :: 0 <= i <= j < |s| ==> s[i] <= s[j] }

  lemma {:induction false} InsertSorts(x: real, s: seq<real>)
    requires Sorted(s)
    ensures Sorted(Insert(x, s, Less))
    ensures forall y :: y in Insert(x, s, Less) <==> y == x || y in s
  {
    if s != [] && !Less(x, s[0]) {
      InsertSorts(x, s[1..]);
      var tail := Insert(x, s[1..], Less);
      forall j | 0 <= j < |tail| ensures s[0] <= tail[j] {
        assert tail[j] in tail;
      }
    }
  }

  lemma {:induction false} RealsSorted(s: seq<real>)
    ensures Sorted(SortReals(s))
  {
    if s != [] {
      RealsSorted(s[1..]);
      InsertSorts(s[0], SortReals(s[1..]));
    }
  }

  /** In a sorted list the values within a limit come first. */
  lemma {:induction false} CountSorted(p: real -> bool, s: seq<real>, k: nat)
    requires Downward(p) && Sorted(s) && 1 <= k <= |s|
    ensures p(s[k - 1]) <==> CountIf(p, s) >= k
    decreases |s|
  {
    var front := s[..|s| - 1];
    CountBounded(p, front);
    if k <= |front| {
      CountSorted(p, front, k);
      if p(s[|s| - 1]) {
        assert s[k - 1] <= s[|s| - 1];
      }
    } else if p(s[|s| - 1]) && front != [] {
      assert s[|front| - 1] <= s[|s| - 1];
      CountSorted(p, front, |front|);
    }
  }

  lemma {:induction false} CountBounded(p: real -> bool, s: seq<real>)
    ensures CountIf(p, s) <= |s|
  {
    if s != [] {
      CountBounded(p, s[..|s| - 1]);
    }
  }

  lemma {:induction false} CountConcat(p: real -> bool, s: seq<real>, t: seq<real>)
    ensures CountIf(p, s + t) == CountIf(p, s) + CountIf(p, t)
    decreases |t|
  {
    if t == [] {
      assert s + t == s;
    } else {
      assert (s + t)[..|s + t| - 1] == s + t[..|t| - 1];
      CountConcat(p, s, t[..|t| - 1]);
    }
  }

  lemma {:induction false} CountReordered(p: real -> bool, s: seq<real>, t: seq<real>)
    requires multiset(s) == multiset(t)
    ensures CountIf(p, s) == CountIf(p, t)
    decreases |s|
  {
    SameMembers(s, t);
    if s != [] {
      assert s[|s| - 1] in t;
      var i: nat :| i < |t| && t[i] == s[|s| - 1];
      TakeOut(t, i);
      DropLast(s);
      CountReordered(p, s[..|s| - 1], t[..i] + t[i + 1..]);
      CountConcat(p, t[..i], t[i + 1..]);
      CountConcat(p, t[..i] + [t[i]], t[i + 1..]);
      CountConcat(p, t[..i], [t[i]]);
      assert t == t[..i] + [t[i]] + t[i + 1..];
      assert [t[i]][..0] == [];
    }
  }

  /** A percentile meets a limit exactly when at least `ceil(pct%)` of the values do. */
  lemma PercentileMeetsLimit(s: seq<real>, pct: nat, p: real -> bool)
    requires s != [] && pct <= 100 && Downward(p)
    ensures p(Percentile(s, pct).value) <==> CountIf(p, s) >= RankOf(pct, |s|)
  {
    SortLength(s);
    RankInside(pct, |s|);
    RealsSorted(s);
    SortKeeps(s, Less);
    CountReordered(p, SortReals(s), s);
    CountSorted(p, SortReals(s), RankOf(pct, |s|));
  }

  // ----- rounding -----

  /** Nearest integer, ties to even. */
  function Nearest(x: real): int {
    var below := x.Floor;
    var rest := x - below as real;
    if rest < 0.5 || (rest == 0.5 && below % 2 == 0) then below else below + 1
  }

  /** To 2 or 4 decimal places. */
  function Round(x: real, digits: nat): real {
    if digits == 2 then Nearest(x * 100.0) as real / 100.0 else Nearest(x * 10000.0) as real / 10000.0
  }

  lemma NearestMonotone(x: real, y: real)
    requires x <= y
    ensures Nearest(x) <= Nearest(y)
  {
    assert x.Floor <= y.Floor;
  }

  lemma RoundMonotone(x: real, y: real, digits: nat)
    requires x <= y
    ensures Round(x, digits) <= Round(y, digits)
  {
    NearestMonotone(x * 100.0, y * 100.0);
    NearestMonotone(x * 10000.0, y * 10000.0);
  }

  /** `n` is a nearest integer to `z`, the even one between two. */
  predicate ClosestTo(z: real, n: int) {
    && -0.5 <= z - n as real <= 0.5
    && (z - n as real == 0.5 || z - n as real == -0.5 ==> n % 2 == 0)
  }

  predicate IsMultiple(x: real, per: int, y: real, n: int)
    requires per > 0
  {
    ClosestTo(x * per as real, n) && y == n as real / per as real
  }

  /** `y` is the multiple of a `per`-th that is nearest to `x`. */
  ghost predicate IsRounded(x: real, per: int, y: real)
    requires per > 0
  {
    exists n: int :: IsMultiple(x, per, y, n)
  }

  lemma NearestIsClosest(z: real)
    ensures ClosestTo(z, Nearest(z))
  {
  }

  lemma RoundIsMultiple(x: real, per: int, z: real, y: real)
    requires per > 0 && z == x * per as real && y == Nearest(z) as real / per as real
    ensures IsRounded(x, per, y)
  {
    NearestIsClosest(z);
    assert IsMultiple(x, per, y, Nearest(z));
  }

  lemma RoundIsNearest(x: real)
    ensures IsRounded(x, 100, Round(x, 2)) && IsRounded(x, 10000, Round(x, 4))
  {
    RoundIsMultiple(x, 100, x * 100.0, Round(x, 2));
    RoundIsMultiple(x, 10000, x * 10000.0, Round(x, 4));
  }

  // ----- what the 95th percentile is, without sorting -----

  function AtMost(v: real): real -> bool { (x: real) => x <= v }

  function Under(v: real): real -> bool { (x: real) => x < v }

  /** At least 95% of the values are at most `v`, one of them, and fewer than 95% are under it. */
  ghost predicate IsP95(s: seq<real>, v: real) {
    v in s && 100 * CountIf(AtMost(v), s) >= 95 * |s| && 100 * CountIf(Under(v), s) < 95 * |s|
  }

  lemma PercentileIsP95(s: seq<real>)
    requires s != []
    ensures IsP95(s, Percentile(s, 95).value)
  {
    var v := Percentile(s, 95).value;
    PercentileMeetsLimit(s, 95, AtMost(v));
    PercentileMeetsLimit(s, 95, Under(v));
    CdivBounds(95 * |s|, 100);
    SortLength(s);
    RankInside(95, |s|);
    SortKeeps(s, Less);
    SameMembers(s, SortReals(s));
    assert v in SortReals(s);
  }

  lemma {:induction false} CountMonotone(p: real -> bool, q: real -> bool, s: seq<real>)
    requires forall x :: p(x) ==> q(x)
    ensures CountIf(p, s) <= CountIf(q, s)
  {
    if s != [] {
      CountMonotone(p, q, s[..|s| - 1]);
    }
  }

  lemma P95Unique(s: seq<real>, v: real, w: real)
    requires IsP95(s, v) && IsP95(s, w)
    ensures v == w
  {
    if v < w {
      CountMonotone(AtMost(v), Under(w), s);
    } else if w < v {
      CountMonotone(AtMost(w), Under(v), s);
    }
  }

  function MetricSummary(s: seq<real>): Option<Metric> {
    if s == [] then None
    else
      SortLength(s);
      Some(Metric(Round(SortReals(s)[0], 4), Round(Percentile(s, 95).value, 4), Round(Percentile(s, 99).value, 4),
                  Round(SortReals(s)[|s| - 1], 4)))
  }

  /** The reported minimum reaches a target exactly when every value, rounded, does. */
  lemma MinimumReaches(s: seq<real>, target: real)
    requires s != []
    ensures MetricSummary(s).value.min >= target <==> forall v :: v in s ==> Round(v, 4) >= target
  {
    SortLength(s);
    RealsSorted(s);
    SortKeeps(s, Less);
    var ordered := SortReals(s);
    SameMembers(s, ordered);
    assert ordered[0] in s;
    forall v | v in s ensures Round(v, 4) >= Round(ordered[0], 4) {
      assert v in ordered;
      var i :| 0 <= i < |ordered| && ordered[i] == v;
      RoundMonotone(ordered[0], v, 4);
    }
  }

  // ----- what is accepted -----

  /** The evaluator's quality; cut to nothing when the answer did not end by itself. */
  function Evaluated(r: Request): Quality {
    var score := Round(r.answer.Passed() as real / 5.0, 4);
    if r.performance.stopped then Quality(r.answer, score, score == 1.0) else Quality(r.answer, 0.0, false)
  }

  predicate ValidRequest(r: Request) {
    r.success ==>
      && r.performance.ttfa.Finite(0.0) && r.performance.elapsed.Finite(0.0)
      && r.performance.tokensPerSecond.Finite(0.0) && r.performance.completionTokens.Finite(0.0)
      && r.performance.ttfa.value <= r.performance.elapsed.value
  }

  predicate Mandatory(p: Policy, r: Request) {
    && (p.grounding ==> r.answer.order && r.answer.activity && r.answer.noForbidden)
    && (p.citation ==> r.answer.source)
    && (p.structured ==> r.answer.structured)
    && r.performance.stopped
  }

  predicate HasNumber(requests: seq<Request>, k: int) { exists i :: 0 <= i < |requests| && requests[i].number == k }

  /** The request numbers are 1 to the concurrency, in some order. */
  predicate NumbersOnce(requests: seq<Request>, concurrency: int) {
    && |requests| == concurrency
    && forall k :: 1 <= k <= concurrency ==> HasNumber(requests, k)
  }

  predicate ValidBatch(o: Observed, index: nat, b: Batch) {
    && b.repetition == index + 1 && b.concurrency == o.concurrency && b.cache == o.cache
    && NumbersOnce(b.requests, o.concurrency)
    && b.elapsed.Finite(0.000001)
    && forall i :: 0 <= i < |b.requests| ==> ValidRequest(b.requests[i])
  }

  predicate ValidObserved(o: Observed) {
    && o.repetitions >= 5 && o.concurrency >= 1 && |o.batches| == o.repetitions
    && forall k: nat :: k < |o.batches| ==> ValidBatch(o, k, o.batches[k])
  }

  // ----- summaries of stored batches -----

  predicate Succeeded(r: Request) { r.success }

  function Successes(rs: seq<Request>): seq<Request> { Filter(Succeeded, rs) }

  function AllSuccesses(bs: seq<Batch>): seq<Request> {
    if bs == [] then [] else AllSuccesses(bs[..|bs| - 1]) + Successes(bs[|bs| - 1].requests)
  }

  /** All requests of all batches. */
  function Together(bs: seq<Batch>): seq<Request> { if bs == [] then [] else bs[0].requests + Together(bs[1..]) }

  lemma {:induction false} TogetherLast(bs: seq<Batch>)
    requires bs != []
    ensures Together(bs) == Together(bs[..|bs| - 1]) + bs[|bs| - 1].requests
  {
    if |bs| > 1 {
      TogetherLast(bs[1..]);
      assert bs[1..][..|bs| - 2] == bs[..|bs| - 1][1..];
    }
  }

  /** The counted requests are those that succeeded, in order; the others are the failures. */
  lemma {:induction false} CountedRequests(bs: seq<Batch>)
    ensures AllSuccesses(bs) == Filter(Succeeded, Together(bs))
    ensures FailuresIn(bs) == |Together(bs)| - |AllSuccesses(bs)|
  {
    if bs != [] {
      var n := |bs| - 1;
      CountedRequests(bs[..n]);
      TogetherLast(bs);
      FilterConcat(Succeeded, Together(bs[..n]), bs[n].requests);
    }
  }

  function ValueOf(n: Num): real { if n.Num? then n.value else 0.0 }

  function TtfaOf(r: Request): real { ValueOf(r.performance.ttfa) }
  function ElapsedOf(r: Request): real { ValueOf(r.performance.elapsed) }
  function RateOf(r: Request): real { ValueOf(r.performance.tokensPerSecond) }
  function TokensOf(r: Request): real { ValueOf(r.performance.completionTokens) }
  function ScoreOf(r: Request): real { r.quality.score }
  function ThroughputOf(b: Batch): real { b.aggregate.tokensPerSecond }

  function Least(s: seq<real>): real
    requires s != []
  {
    var last := s[|s| - 1];
    if |s| == 1 then last
    else
      var before := Least(s[..|s| - 1]);
      if before <= last then before else last
  }

  function FailedTotal(bs: seq<Batch>): int {
    if bs == [] then 0 else FailedTotal(bs[..|bs| - 1]) + bs[|bs| - 1].aggregate.failed
  }

  predicate QualityPassed(r: Request) { r.quality.pass }

  /** The summary as computed from what the batches carry, stored quality and aggregates included. */
  function Summarize(bs: seq<Batch>): Summary {
    var rs := AllSuccesses(bs);
    Summary(|rs|, FailedTotal(bs), MetricSummary(Map(TtfaOf, rs)), MetricSummary(Map(ElapsedOf, rs)),
            MetricSummary(Map(RateOf, rs)),
            MetricSummary(Map(ThroughputOf, bs)), if rs == [] then None else Some(Round(Least(Map(ScoreOf, rs)), 4)),
            |Filter(QualityPassed, rs)|)
  }

  // ----- replay -----

  function Rewrite(r: Request): Request { if r.success then r.(quality := Evaluated(r)) else r }

  function SumReals(s: seq<real>): real { if s == [] then 0.0 else SumReals(s[..|s| - 1]) + s[|s| - 1] }

  function TokensIn(rs: seq<Request>): real { SumReals(Map(TokensOf, Successes(rs))) }

  function FailedIn(rs: seq<Request>): int { |rs| - |Successes(rs)| }

  function RewriteBatch(b: Batch): Batch {
    b.(requests := Map(Rewrite, b.requests),
       aggregate := Aggregate(FailedIn(b.requests),
                              TokensIn(b.requests) / if ValueOf(b.elapsed) > 0.0 then b.elapsed.value else 1.0))
  }

  function MandatoryPasses(p: Policy, rs: seq<Request>): nat {
    if rs == [] then 0 else MandatoryPasses(p, rs[..|rs| - 1]) + Count(Mandatory(p, rs[|rs| - 1]))
  }

  function PassRate(passes: nat, total: nat): real { if total == 0 then 0.0 else passes as real / total as real }

  datatype Replay = Replay(summary: Summary, mandatoryRate: real)

  /** What a replay gives: nothing for observations it refuses. */
  function Replayed(o: Observed, p: Policy): Option<Replay> {
    if !ValidObserved(o) then None
    else
      var rs := AllSuccesses(o.batches);
      Some(Replay(Summarize(Map(RewriteBatch, o.batches)), PassRate(MandatoryPasses(p, rs), |rs|)))
  }


  lemma {:induction false} SuccessesRewritten(rs: seq<Request>)
    ensures Successes(Map(Rewrite, rs)) == Map(Rewrite, Successes(rs))
  {
    if rs != [] {
      var front, last := rs[..|rs| - 1], rs[|rs| - 1];
      SuccessesRewritten(front);
      assert Map(Rewrite, rs)[..|rs| - 1] == Map(Rewrite, front);
      assert Map(Rewrite, Successes(front) + [last]) == Map(Rewrite, Successes(front)) + [Rewrite(last)];
    }
  }

  /** Rewriting keeps which requests succeeded and touches nothing but their quality. */
  lemma {:induction false} AllSuccessesRewritten(bs: seq<Batch>)
    ensures AllSuccesses(Map(RewriteBatch, bs)) == Map(Rewrite, AllSuccesses(bs))
  {
    if bs != [] {
      var n := |bs| - 1;
      AllSuccessesRewritten(bs[..n]);
      SuccessesRewritten(bs[n].requests);
      MapTake(RewriteBatch, bs, n);
      MapConcat(Rewrite, AllSuccesses(bs[..n]), Successes(bs[n].requests));
    }
  }

  lemma {:induction false} AllSucceeded(bs: seq<Batch>)
    ensures forall r :: r in AllSuccesses(bs) ==> r.success
  {
    if bs != [] {
      AllSucceeded(bs[..|bs| - 1]);
    }
  }

  function FailuresIn(bs: seq<Batch>): int {
    if bs == [] then 0 else FailuresIn(bs[..|bs| - 1]) + FailedIn(bs[|bs| - 1].requests)
  }

  lemma {:induction false} FailuresCounted(bs: seq<Batch>)
    ensures FailedTotal(Map(RewriteBatch, bs)) == FailuresIn(bs)
  {
    if bs != [] {
      FailuresCounted(bs[..|bs| - 1]);
      MapTake(RewriteBatch, bs, |bs| - 1);
    }
  }

  function FreshScore(r: Request): real { Evaluated(r).score }

  lemma RewrittenMetrics(rs: seq<Request>)
    requires forall r :: r in rs ==> r.success
    ensures Map(TtfaOf, Map(Rewrite, rs)) == Map(TtfaOf, rs) && Map(ElapsedOf, Map(Rewrite, rs)) == Map(ElapsedOf, rs)
    ensures Map(RateOf, Map(Rewrite, rs)) == Map(RateOf, rs) && Map(ScoreOf, Map(Rewrite, rs)) == Map(FreshScore, rs)
  {
    forall i | 0 <= i < |rs| ensures ScoreOf(Rewrite(rs[i])) == FreshScore(rs[i]) {
      assert rs[i].success;
    }
  }

  /** What a replayed summary says, read off the raw observations. */
  lemma ReplayedMeans(o: Observed, p: Policy)
    requires ValidObserved(o)
    ensures var rs, s := AllSuccesses(o.batches), Replayed(o, p).value.summary;
            && s.requests == |rs| && s.failed == FailuresIn(o.batches)
            && s.ttfa == MetricSummary(Map(TtfaOf, rs)) && s.elapsed == MetricSummary(Map(ElapsedOf, rs))
            && s.tokensPerSecond == MetricSummary(Map(RateOf, rs))
            && s.scoreMin == if rs == [] then None else Some(Round(Least(Map(FreshScore, rs)), 4))
  {
    AllSuccessesRewritten(o.batches);
    AllSucceeded(o.batches);
    RewrittenMetrics(AllSuccesses(o.batches));
    FailuresCounted(o.batches);
  }

  /** All five checks passed by an answer that ended by itself. */
  predicate FullyRight(r: Request) {
    && r.performance.stopped
    && r.answer.structured && r.answer.order && r.answer.activity && r.answer.source && r.answer.noForbidden
  }

  lemma FullScore(r: Request)
    ensures Evaluated(r).pass <==> FullyRight(r)
  {
    var n := r.answer.Passed();
    assert n as real / 5.0 * 10000.0 == 2000.0 * n as real;
    assert Nearest(2000.0 * n as real) == 2000 * n;
  }

  lemma {:induction false} PassesAreRight(rs: seq<Request>)
    requires forall r :: r in rs ==> r.success
    ensures |Filter(QualityPassed, Map(Rewrite, rs))| == |Filter(FullyRight, rs)|
  {
    if rs != [] {
      var front, last := rs[..|rs| - 1], rs[|rs| - 1];
      PassesAreRight(front);
      FullScore(last);
      assert Map(Rewrite, rs)[..|rs| - 1] == Map(Rewrite, front) && last in rs;
    }
  }

  /** Completion tokens of a batch's successes for each second it took. */
  function RateOfBatch(b: Batch): real {
    if ValueOf(b.elapsed) > 0.0 then SumReals(Map(TokensOf, Successes(b.requests))) / ValueOf(b.elapsed) else 0.0
  }

  ghost predicate AllTimed(bs: seq<Batch>) { forall k :: 0 <= k < |bs| ==> ValueOf(bs[k].elapsed) > 0.0 }

  lemma ThroughputsRewritten(bs: seq<Batch>)
    requires AllTimed(bs)
    ensures Map(ThroughputOf, Map(RewriteBatch, bs)) == Map(RateOfBatch, bs)
  {
    forall k | 0 <= k < |bs| ensures ThroughputOf(RewriteBatch(bs[k])) == RateOfBatch(bs[k]) {
    }
  }

  lemma ValidIsTimed(o: Observed)
    requires ValidObserved(o)
    ensures AllTimed(o.batches)
  {
    forall k: nat | k < |o.batches| ensures ValueOf(o.batches[k].elapsed) > 0.0 {
      assert ValidBatch(o, k, o.batches[k]);
    }
  }

  /** What it says of whole answers and of throughput. */
  lemma ReplayedRest(o: Observed, p: Policy)
    requires ValidObserved(o)
    ensures var rs, s := AllSuccesses(o.batches), Replayed(o, p).value.summary;
            s.passes == |Filter(FullyRight, rs)| && s.throughput == MetricSummary(Map(RateOfBatch, o.batches))
  {
    AllSuccessesRewritten(o.batches);
    AllSucceeded(o.batches);
    PassesAreRight(AllSuccesses(o.batches));
    ValidIsTimed(o);
    ThroughputsRewritten(o.batches);
  }

  lemma {:induction false} LeastMeans(s: seq<real>)
    requires s != []
    ensures Least(s) in s && forall v :: v in s ==> Least(s) <= v
  {
    if |s| > 1 {
      LeastMeans(s[..|s| - 1]);
      assert s == s[..|s| - 1] + [s[|s| - 1]];
    }
  }

  ghost predicate IsLeast(s: seq<real>, v: real) { v in s && forall w :: w in s ==> v <= w }

  /** The reported percentile and minimum, read off the values. */
  lemma MetricReads(s: seq<real>)
    requires s != []
    ensures exists v :: IsP95(s, v) && MetricSummary(s).value.p95 == Round(v, 4)
    ensures exists v :: IsLeast(s, v) && MetricSummary(s).value.min == Round(v, 4)
  {
    PercentileIsP95(s);
    SortLength(s);
    RealsSorted(s);
    SortKeeps(s, Less);
    SameMembers(s, SortReals(s));
    var v := SortReals(s)[0];
    assert v in SortReals(s);
    forall w | w in s ensures v <= w {
      assert w in SortReals(s);
    }
    assert IsLeast(s, v);
  }

  ghost predicate AllMandatory(p: Policy, rs: seq<Request>) { forall r :: r in rs ==> Mandatory(p, r) }

  lemma {:induction false} MandatoryAll(p: Policy, rs: seq<Request>)
    ensures MandatoryPasses(p, rs) <= |rs|
    ensures MandatoryPasses(p, rs) == |rs| <==> AllMandatory(p, rs)
  {
    if rs != [] {
      MandatoryAll(p, rs[..|rs| - 1]);
      assert rs == rs[..|rs| - 1] + [rs[|rs| - 1]];
    }
  }

  lemma {:induction false} SuccessesFit(rs: seq<Request>)
    ensures |Successes(rs)| <= |rs| && forall r :: r in Successes(rs) ==> r in rs
  {
    if rs != [] {
      SuccessesFit(rs[..|rs| - 1]);
    }
  }

  lemma {:induction false} FailuresNeverNegative(bs: seq<Batch>)
    ensures FailuresIn(bs) >= 0
  {
    if bs != [] {
      FailuresNeverNegative(bs[..|bs| - 1]);
      SuccessesFit(bs[|bs| - 1].requests);
    }
  }

  /** Every counted request of valid observations has its numbers. */
  lemma {:induction false} CountedAreValid(bs: seq<Batch>)
    requires forall k, i :: 0 <= k < |bs| && 0 <= i < |bs[k].requests| ==> ValidRequest(bs[k].requests[i])
    ensures forall r :: r in AllSuccesses(bs) ==> r.success && ValidRequest(r)
  {
    if bs != [] {
      CountedAreValid(bs[..|bs| - 1]);
      SuccessesFit(bs[|bs| - 1].requests);
    }
  }

  // ----- stored results do not matter -----

  function Bare(r: Request): Request { r.(quality := Quality(r.answer, 0.0, false)) }

  /** A batch without what was stored about it. */
  function BareBatch(b: Batch): Batch { b.(requests := Map(Bare, b.requests), aggregate := Aggregate(0, 0.0)) }

  ghost predicate SameBare(rs: seq<Request>, ts: seq<Request>) {
    |rs| == |ts| && forall i :: 0 <= i < |rs| ==> Bare(rs[i]) == Bare(ts[i])
  }

  lemma BareRequests(b: Batch, c: Batch)
    requires BareBatch(b) == BareBatch(c)
    ensures SameBare(b.requests, c.requests)
  {
    var x, y := Map(Bare, b.requests), Map(Bare, c.requests);
    forall i | 0 <= i < |b.requests| ensures Bare(b.requests[i]) == Bare(c.requests[i]) {
      assert x[i] == y[i];
    }
  }

  lemma {:induction false} BareSuccesses(rs: seq<Request>, ts: seq<Request>)
    requires SameBare(rs, ts)
    ensures SameBare(Successes(rs), Successes(ts))
    decreases |rs|
  {
    if rs != [] {
      var n := |rs| - 1;
      assert Bare(rs[n]) == Bare(ts[n]);
      BareSuccesses(rs[..n], ts[..n]);
    }
  }

  lemma {:induction false} BareAllSuccesses(bs: seq<Batch>, cs: seq<Batch>)
    requires Map(BareBatch, bs) == Map(BareBatch, cs)
    ensures SameBare(AllSuccesses(bs), AllSuccesses(cs)) && FailuresIn(bs) == FailuresIn(cs)
    decreases |bs|
  {
    assert |bs| == |cs|;
    if bs != [] {
      var n := |bs| - 1;
      assert Map(BareBatch, bs)[n] == Map(BareBatch, cs)[n];
      assert Map(BareBatch, bs[..n]) == Map(BareBatch, bs)[..n] && Map(BareBatch, cs[..n]) == Map(BareBatch, cs)[..n];
      BareAllSuccesses(bs[..n], cs[..n]);
      BareRequests(bs[n], cs[n]);
      BareSuccesses(bs[n].requests, cs[n].requests);
    }
  }

  /** Requests alike apart from stored quality are rewritten to the same. */
  lemma BareRewrites(rs: seq<Request>, ts: seq<Request>)
    requires SameBare(rs, ts) && forall r :: r in rs ==> r.success
    ensures Map(Rewrite, rs) == Map(Rewrite, ts)
  {
    forall i | 0 <= i < |rs| ensures Rewrite(rs[i]) == Rewrite(ts[i]) {
      assert rs[i].success;
      assert Bare(rs[i]) == Bare(ts[i]);
    }
  }

  lemma {:induction false} BareMandatory(p: Policy, rs: seq<Request>, ts: seq<Request>)
    requires SameBare(rs, ts)
    ensures MandatoryPasses(p, rs) == MandatoryPasses(p, ts)
    decreases |rs|
  {
    if rs != [] {
      var n := |rs| - 1;
      assert Bare(rs[n]) == Bare(ts[n]);
      BareMandatory(p, rs[..n], ts[..n]);
    }
  }

  lemma BareThroughput(b: Batch, c: Batch)
    requires BareBatch(b) == BareBatch(c)
    ensures ThroughputOf(RewriteBatch(b)) == ThroughputOf(RewriteBatch(c))
  {
    BareRequests(b, c);
    BareSuccesses(b.requests, c.requests);
    var rs, ts := Successes(b.requests), Successes(c.requests);
    forall i | 0 <= i < |rs| ensures TokensOf(rs[i]) == TokensOf(ts[i]) {
      assert Bare(rs[i]) == Bare(ts[i]);
    }
    assert Map(TokensOf, rs) == Map(TokensOf, ts);
    assert b.elapsed == c.elapsed;
  }

  lemma BareNumbers(rs: seq<Request>, ts: seq<Request>, concurrency: int)
    requires SameBare(rs, ts) && NumbersOnce(rs, concurrency)
    ensures NumbersOnce(ts, concurrency)
  {
    forall k | 1 <= k <= concurrency ensures HasNumber(ts, k) {
      assert HasNumber(rs, k);
      var i :| 0 <= i < |rs| && rs[i].number == k;
      assert Bare(rs[i]) == Bare(ts[i]);
    }
  }

  lemma BareValid(o: Observed, u: Observed)
    requires o.(batches := Map(BareBatch, o.batches)) == u.(batches := Map(BareBatch, u.batches)) && ValidObserved(o)
    ensures ValidObserved(u)
  {
    forall k: nat | k < |u.batches| ensures ValidBatch(u, k, u.batches[k]) {
      var b, c := o.batches[k], u.batches[k];
      assert Map(BareBatch, o.batches)[k] == Map(BareBatch, u.batches)[k];
      assert BareBatch(b) == BareBatch(c);
      BareRequests(b, c);
      assert ValidBatch(o, k, b);
      BareNumbers(b.requests, c.requests, o.concurrency);
      assert BareBatch(c).elapsed == c.elapsed && BareBatch(b).repetition == b.repetition
             && BareBatch(b).cache == b.cache;
      forall i | 0 <= i < |c.requests| ensures ValidRequest(c.requests[i]) {
        assert Bare(b.requests[i]) == Bare(c.requests[i]) && ValidRequest(b.requests[i]);
      }
    }
  }

  lemma BareThroughputs(bs: seq<Batch>, cs: seq<Batch>)
    requires Map(BareBatch, bs) == Map(BareBatch, cs)
    ensures Map(ThroughputOf, Map(RewriteBatch, bs)) == Map(ThroughputOf, Map(RewriteBatch, cs))
  {
    var x, y := Map(BareBatch, bs), Map(BareBatch, cs);
    assert |x| == |y|;
    forall i | 0 <= i < |bs| ensures ThroughputOf(RewriteBatch(bs[i])) == ThroughputOf(RewriteBatch(cs[i])) {
      assert x[i] == y[i];
      BareThroughput(bs[i], cs[i]);
    }
  }

  lemma BareSummary(bs: seq<Batch>, cs: seq<Batch>)
    requires Map(BareBatch, bs) == Map(BareBatch, cs)
    ensures Summarize(Map(RewriteBatch, bs)) == Summarize(Map(RewriteBatch, cs))
  {
    BareAllSuccesses(bs, cs);
    AllSucceeded(bs);
    BareRewrites(AllSuccesses(bs), AllSuccesses(cs));
    AllSuccessesRewritten(bs);
    AllSuccessesRewritten(cs);
    FailuresCounted(bs);
    FailuresCounted(cs);
    BareThroughputs(bs, cs);
  }

  /** Observations that differ only in stored quality and stored aggregates replay to the same result. */
  lemma ReplayIgnoresStored(o: Observed, u: Observed, p: Policy)
    requires o.(batches := Map(BareBatch, o.batches)) == u.(batches := Map(BareBatch, u.batches))
    ensures Replayed(o, p) == Replayed(u, p)
  {
    if ValidObserved(o) {
      BareValid(o, u);
      BareAllSuccesses(o.batches, u.batches);
      BareMandatory(p, AllSuccesses(o.batches), AllSuccesses(u.batches));
      BareSummary(o.batches, u.batches);
    } else if ValidObserved(u) {
      BareValid(u, o);
    }
  }

  // ----- the replay loop -----

  /** Rewriting a list in place, one element further. */
  lemma RewriteNext<T>(f: T -> T, s: seq<T>, i: nat)
    requires i < |s|
    ensures (Map(f, s[..i]) + s[i..])[i] == s[i]
    ensures (Map(f, s[..i]) + s[i..])[i := f(s[i])] == Map(f, s[..i + 1]) + s[i + 1..]
  {
    var x, y := (Map(f, s[..i]) + s[i..])[i := f(s[i])], Map(f, s[..i + 1]) + s[i + 1..];
    assert |x| == |y|;
    assert forall k :: 0 <= k < i ==> x[k] == f(s[k]) && y[k] == f(s[k]);
  }

  /** What one more request adds to the counters. */
  lemma OneRequest(p: Policy, rs: seq<Request>, i: nat)
    requires i < |rs|
    ensures var r := rs[i];
            && FailedIn(rs[..i + 1]) == FailedIn(rs[..i]) + Count(!r.success)
            && Successes(rs[..i + 1]) == Successes(rs[..i]) + (if r.success then [r] else [])
            && TokensIn(rs[..i + 1]) == TokensIn(rs[..i]) + (if r.success then TokensOf(r) else 0.0)
            && MandatoryPasses(p, Successes(rs[..i + 1]))
               == MandatoryPasses(p, Successes(rs[..i])) + (if r.success then Count(Mandatory(p, r)) else 0)
  {
    assert rs[..i + 1][..i] == rs[..i];
    var s, t := Successes(rs[..i]), Successes(rs[..i + 1]);
    if rs[i].success {
      assert t == s + [rs[i]] && t[..|s|] == s;
      MapTake(TokensOf, t, |s|);
    } else {
      assert t == s;
    }
  }

  /** The running counters of one batch after its first `i` requests. */
  datatype Tally = Tally(failed: int, tokens: real, passes: nat, counted: nat)

  ghost function TallyOf(p: Policy, rs: seq<Request>): Tally {
    Tally(FailedIn(rs), TokensIn(rs), MandatoryPasses(p, Successes(rs)), |Successes(rs)|)
  }

  ghost predicate Halfway(p: Policy, rs: seq<Request>, i: nat, requests: seq<Request>, t: Tally)
    requires i <= |rs|
  {
    && requests == Map(Rewrite, rs[..i]) + rs[i..]
    && t == TallyOf(p, rs[..i])
    && forall j :: 0 <= j < i ==> ValidRequest(rs[j])
  }

  /** One request: counted as failed, or evaluated anew in place. */
  method ReplayRequest(p: Policy, ghost rs: seq<Request>, i: nat, before: seq<Request>, t: Tally)
    returns (requests: seq<Request>, u: Tally)
    requires i < |rs| && Halfway(p, rs, i, before, t) && ValidRequest(rs[i])
    ensures Halfway(p, rs, i + 1, requests, u)
  {
    var r := before[i];
    assert r == rs[i];
    OneRequest(p, rs, i);
    RewriteNext(Rewrite, rs, i);
    if !r.success {
      assert before[i := r] == before;
      requests, u := before, t.(failed := t.failed + 1);
    } else {
      requests := before[i := r.(quality := Evaluated(r))];
      u := Tally(t.failed, t.tokens + r.performance.completionTokens.value,
                 t.passes + Count(Mandatory(p, r)), t.counted + 1);
    }
  }

  method ReplayRequests(p: Policy, rs: seq<Request>) returns (valid: bool, requests: seq<Request>, t: Tally)
    ensures valid <==> forall i :: 0 <= i < |rs| ==> ValidRequest(rs[i])
    ensures valid ==> requests == Map(Rewrite, rs) && t == TallyOf(p, rs)
  {
    requests, t, valid := rs, Tally(0, 0.0, 0, 0), true;
    for i := 0 to |rs|
      invariant Halfway(p, rs, i, requests, t)
    {
      if !ValidRequest(rs[i]) {
        valid := false;
        return;
      }
      requests, t := ReplayRequest(p, rs, i, requests, t);
    }
    assert rs[..|rs|] == rs && requests == Map(Rewrite, rs);
  }

  /** One batch, its copy rewritten in place. */
  method ReplayBatch(o: Observed, index: nat, b: Batch, p: Policy)
    returns (valid: bool, batch: Batch, passes: nat, counted: nat)
    ensures valid == ValidBatch(o, index, b)
    ensures valid ==> batch == RewriteBatch(b)
    ensures valid ==> passes == MandatoryPasses(p, Successes(b.requests)) && counted == |Successes(b.requests)|
  {
    batch, passes, counted, valid := b, 0, 0, false;
    if b.repetition == index + 1 && b.concurrency == o.concurrency && b.cache == o.cache
      && NumbersOnce(b.requests, o.concurrency) && b.elapsed.Finite(0.000001)
    {
      var requests, t;
      valid, requests, t := ReplayRequests(p, b.requests);
      batch := b.(requests := requests, aggregate := Aggregate(t.failed, t.tokens / b.elapsed.value));
      passes, counted := t.passes, t.counted;
    }
  }

  lemma {:induction false} MandatoryConcat(p: Policy, s: seq<Request>, t: seq<Request>)
    ensures MandatoryPasses(p, s + t) == MandatoryPasses(p, s) + MandatoryPasses(p, t)
    decreases |t|
  {
    if t == [] {
      assert s + t == s;
    } else {
      assert (s + t)[..|s + t| - 1] == s + t[..|t| - 1];
      MandatoryConcat(p, s, t[..|t| - 1]);
    }
  }

  /** The copies before `i` are rewritten, the others still as they came. */
  ghost predicate Progress(o: Observed, p: Policy, i: nat, batches: seq<Batch>, passes: nat, counted: nat)
    requires i <= |o.batches|
  {
    && batches == Map(RewriteBatch, o.batches[..i]) + o.batches[i..]
    && passes == MandatoryPasses(p, AllSuccesses(o.batches[..i])) && counted == |AllSuccesses(o.batches[..i])|
  }

  lemma OneBatch(bs: seq<Batch>, i: nat)
    requires i < |bs|
    ensures AllSuccesses(bs[..i + 1]) == AllSuccesses(bs[..i]) + Successes(bs[i].requests)
  {
    assert bs[..i + 1][..i] == bs[..i];
  }

  lemma ProgressStep(o: Observed, p: Policy, i: nat, batches: seq<Batch>, passes: nat, counted: nat)
    requires i < |o.batches| && Progress(o, p, i, batches, passes, counted)
    ensures var rs := Successes(o.batches[i].requests);
            Progress(o, p, i + 1, batches[i := RewriteBatch(o.batches[i])],
                     passes + MandatoryPasses(p, rs), counted + |rs|)
  {
    RewriteNext(RewriteBatch, o.batches, i);
    OneBatch(o.batches, i);
    MandatoryConcat(p, AllSuccesses(o.batches[..i]), Successes(o.batches[i].requests));
  }

  ghost predicate FirstValid(o: Observed, i: nat)
    requires i <= |o.batches|
  {
    forall k: nat :: k < i ==> ValidBatch(o, k, o.batches[k])
  }

  lemma Finished(o: Observed, p: Policy, batches: seq<Batch>, passes: nat, counted: nat)
    requires o.repetitions >= 5 && o.concurrency >= 1 && |o.batches| == o.repetitions
    requires Progress(o, p, |o.batches|, batches, passes, counted) && FirstValid(o, |o.batches|)
    ensures Replayed(o, p) == Some(Replay(Summarize(batches), PassRate(passes, counted)))
  {
    assert o.batches[..|o.batches|] == o.batches && batches == Map(RewriteBatch, o.batches);
  }

  lemma Refused(o: Observed, p: Policy, i: nat)
    requires i < |o.batches| && !ValidBatch(o, i, o.batches[i])
    ensures Replayed(o, p) == None
  {
  }

  method ReplayNext(o: Observed, p: Policy, i: nat, before: seq<Batch>, passesBefore: nat, countedBefore: nat)
    returns (valid: bool, batches: seq<Batch>, passes: nat, counted: nat)
    requires i < |o.batches| && o.concurrency >= 1 && Progress(o, p, i, before, passesBefore, countedBefore)
    requires FirstValid(o, i)
    ensures valid ==> Progress(o, p, i + 1, batches, passes, counted) && FirstValid(o, i + 1)
    ensures !valid ==> Replayed(o, p) == None
  {
    batches := before;
    assert batches[i] == o.batches[i];
    var batch, some, n;
    valid, batch, some, n := ReplayBatch(o, i, batches[i], p);
    passes, counted := passesBefore + some, countedBefore + n;
    if valid {
      ProgressStep(o, p, i, before, passesBefore, countedBefore);
      batches := batches[i := batch];
    } else {
      Refused(o, p, i);
    }
  }

  lemma ProgressStarts(o: Observed, p: Policy)
    ensures Progress(o, p, 0, o.batches, 0, 0) && FirstValid(o, 0)
  {
  }

  method ReplayBatches(o: Observed, p: Policy) returns (valid: bool, batches: seq<Batch>, passes: nat, counted: nat)
    requires o.concurrency >= 1
    ensures valid ==> Progress(o, p, |o.batches|, batches, passes, counted) && FirstValid(o, |o.batches|)
    ensures !valid ==> Replayed(o, p) == None
  {
    valid, batches, passes, counted := true, o.batches, 0, 0;
    ProgressStarts(o, p);
    for i := 0 to |o.batches|
      invariant Progress(o, p, i, batches, passes, counted) && FirstValid(o, i)
    {
      valid, batches, passes, counted := ReplayNext(o, p, i, batches, passes, counted);
      if !valid {
        return;
      }
    }
    valid := true;
  }

  /** The whole replay over a copy of the batches. */
  method ReplayAll(o: Observed, p: Policy) returns (r: Option<Replay>)
    ensures r == Replayed(o, p)
  {
    if o.repetitions < 5 || o.concurrency < 1 || |o.batches| != o.repetitions {
      return None;
    }
    var valid, batches, passes, counted := ReplayBatches(o, p);
    if !valid {
      return None;
    }
    Finished(o, p, batches, passes, counted);
    r := Some(Replay(Summarize(batches), PassRate(passes, counted)));
  }
}
