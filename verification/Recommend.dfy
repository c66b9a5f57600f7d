// From replayed evidence to a verdict, a ranking and one recommended profile.
module Recommend {
  import opened Acceptance
  import opened Arithmetic
  import opened Evidence
  import opened Ranking
  import opened Wrappers

  import Contracts
  import WorkloadPlan

  datatype Mode = Probe | Assistant

  datatype Reasoning = Disabled | Required | Optional

  datatype QualityRules = QualityRules(grounding: bool, citation: bool, structured: bool, toolCalls: bool,
                                       minimumScore: Num, other: int)

  datatype ResponseRules = ResponseRules(structured: bool, defaultMode: Mode, other: int)

  type Experiment = WorkloadPlan.Point

  /** The workload contract, with what the engine reads of its objectives and rules; an absent objective is `None`. */
  datatype Contract = Contract(workload: Contracts.Contract,
                               ttfa: Option<Num>, endToEnd: Option<Num>, tokensPerSecond: Option<Num>,
                               errorRate: Option<Num>,
                               quality: QualityRules, response: ResponseRules, reasoning: Reasoning, streaming: bool)

  /** `digest` is the hash of the execution identity, recomputed from it. */
  datatype Profile = Profile(sha: nat, id: nat, digest: nat, observed: bool, live: bool, hardwareKnown: bool,
                             environmentKnown: bool,
                             snapshotKnown: bool, imageKnown: bool, servedNames: seq<int>)

  datatype Comparison = Comparison(quality: QualityRules, response: ResponseRules, packDigestLength: nat,
                                   executorKnown: bool,
                                   seeded: bool, truthSupported: bool, evaluatorCurrent: bool, other: int)

  datatype Protocol = Protocol(paired: bool, repetitions: int, reasoning: Reasoning, thinking: Option<bool>, other: int)

  /** Results stored beside the observations. */
  datatype Stored = Stored(summaries: seq<Summary>, assessments: seq<bool>)

  datatype Record = Record(schemaKnown: bool, workload: Contracts.Value, profile: Profile, stable: bool, endSha: nat,
                           model: int,
                               protocol: Protocol, comparison: Comparison, experiment: Experiment, scenario: int,
                               hardware: int, runtimeModel: int, engine: int, image: int,
                               probe: seq<Batch>, assistant: seq<Batch>, stored: Stored)

  datatype Signature = Signature(experiment: Experiment, scenario: int, comparison: Comparison, protocol: Protocol,
                                 hardware: int, model: int, engine: int, image: int)

  datatype Check = Check(actual: Option<real>, target: real, pass: bool)

  datatype Assessment = Assessment(ttfa: Check, endToEnd: Check, tokensPerSecond: Check, errorRate: Check,
                                   score: Check, mandatory: Check) {
    predicate Pass() {
      ttfa.pass && endToEnd.pass && tokensPerSecond.pass && errorRate.pass && score.pass && mandatory.pass
    }
  }

  datatype Row = Row(sha: nat, id: nat, signature: Signature, checks: Assessment, eligible: bool)

  datatype Verdict = InsufficientEvidence | NoneMeets | Recommended

  datatype Decision = Decision(verdict: Verdict, recommended: Option<nat>, ranking: seq<nat>)

  // ----- gates -----

  /** The profile id carries the first 12 of the 64 hexadecimal digits. */
  function ShortId(sha: nat): nat { sha / SHORT }

  const SHORT: nat := 0x1_0000_0000_0000_0000_0000_0000_0000_0000_0000_0000_0000_0000_0000

  predicate Thinking(reasoning: Reasoning, thinking: Option<bool>) {
    (reasoning.Disabled? && thinking == Some(false)) || (reasoning.Required? && thinking == Some(true))
  }

  /** The experiments planned for a contract; none where there is too little to plan with. */
  function Planned(c: Contracts.Contract): seq<Experiment> {
    if c.traffic.Object? && c.traffic.fields.users.Some? && c.traffic.fields.users.value != []
       && Contracts.InputOf(c).Object? && Contracts.OutputOf(c).Object?
    then WorkloadPlan.Plan(c)
    else []
  }

  predicate ToolsOff(c: Contracts.Contract) { c.tools.Object? && !c.tools.fields.enabled }

  predicate ProvenProfile(e: Record) {
    && e.profile.sha == e.profile.digest && e.profile.id == ShortId(e.profile.digest)
    && e.profile.observed && e.profile.live && e.stable && e.endSha == e.profile.digest
    && e.profile.hardwareKnown && e.profile.environmentKnown && e.profile.snapshotKnown && e.profile.imageKnown
    && e.model in e.profile.servedNames
  }

  /** Every gate but that of the plan. */
  predicate PassesGates(e: Record, c: Contract) {
    && e.schemaKnown && e.workload == c.workload.id && ProvenProfile(e)
    && e.protocol.paired && e.protocol.repetitions >= 5 && e.protocol.reasoning == c.reasoning
    && e.comparison.response == c.response && e.comparison.quality == c.quality
    && e.comparison.packDigestLength == 64 && e.comparison.executorKnown && e.comparison.seeded
    && ToolsOff(c.workload) && !c.quality.toolCalls && c.streaming
    && Thinking(c.reasoning, e.protocol.thinking)
    && e.comparison.truthSupported && e.comparison.evaluatorCurrent
  }

  predicate Admissible(e: Record, c: Contract) { PassesGates(e, c) && e.experiment in Planned(c.workload) }

  function BatchesOf(e: Record, mode: Mode): seq<Batch> { if mode.Probe? then e.probe else e.assistant }

  function ObservedIn(e: Record, mode: Mode): Observed {
    Observed(e.protocol.repetitions, e.experiment.concurrency, e.experiment.cache, BatchesOf(e, mode))
  }

  function PolicyOf(e: Record): Policy {
    Policy(e.comparison.quality.grounding, e.comparison.quality.citation,
           e.comparison.quality.structured || e.comparison.response.structured)
  }

  // ----- service objectives -----

  function P95(m: Option<Metric>): Option<real> { if m.Some? then Some(m.value.p95) else None }

  function Minimum(m: Option<Metric>): Option<real> { if m.Some? then Some(m.value.min) else None }

  function LatencyCheck(actual: Option<real>, target: real): Check {
    Check(if actual.Some? then Some(Round(actual.value * 1000.0, 2)) else None, target,
          actual.Some? && actual.value * 1000.0 <= target)
  }

  function FloorCheck(actual: Option<real>, target: real): Check {
    Check(actual, target, actual.Some? && actual.value >= target)
  }

  function ErrorCheck(rate: real, target: real): Check { Check(Some(Round(rate, 4)), target, rate <= target) }

  function ErrorRate(failed: int, succeeded: int): real {
    if failed + succeeded == 0 then 1.0 else failed as real / (failed + succeeded) as real
  }

  function Assess(r: Replay, c: Contract): Assessment
    requires HasTargets(c)
  {
    var s := r.summary;
    Assessment(LatencyCheck(P95(s.ttfa), c.ttfa.value.value), LatencyCheck(P95(s.elapsed), c.endToEnd.value.value),
               FloorCheck(Minimum(s.tokensPerSecond), c.tokensPerSecond.value.value),
               ErrorCheck(ErrorRate(s.failed, s.requests), c.errorRate.value.value),
               FloorCheck(s.scoreMin, c.quality.minimumScore.value),
               Check(Some(r.mandatoryRate), 1.0, r.mandatoryRate == 1.0))
  }

  predicate Present(target: Option<Num>) { target.Some? && target.value.Num? }

  predicate HasTargets(c: Contract) {
    Present(c.ttfa) && Present(c.endToEnd) && Present(c.tokensPerSecond) && Present(c.errorRate)
    && c.quality.minimumScore.Num?
  }

  /** A metric may be missing only when nothing succeeded. */
  predicate Usable(check: Check, requests: nat) {
    if check.actual.None? then requests == 0 else check.actual.value >= 0.0
  }

  predicate AllUsable(a: Assessment, requests: nat) {
    && Usable(a.ttfa, requests) && Usable(a.endToEnd, requests) && Usable(a.tokensPerSecond, requests)
    && Usable(a.errorRate, requests) && Usable(a.score, requests)
  }

  /** The row for the replay of the contract's mode; the replay of the other mode only has to be valid. */
  function RowFor(e: Record, c: Contract, probe: Option<Replay>, assistant: Option<Replay>): Option<Row> {
    if !Admissible(e, c) || probe.None? || assistant.None? || !HasTargets(c) then None
    else
      var replay := if c.response.defaultMode.Probe? then probe.value else assistant.value;
      var checks := Assess(replay, c);
      if !AllUsable(checks, replay.summary.requests) then None
      else Some(Row(e.profile.digest, e.profile.id, SignatureOf(e), checks, checks.Pass()))
  }

  /** The row an evidence record gives, or nothing when it is rejected. */
  function Judge(e: Record, c: Contract): Option<Row> {
    RowFor(e, c, Replayed(ObservedIn(e, Probe), PolicyOf(e)), Replayed(ObservedIn(e, Assistant), PolicyOf(e)))
  }

  function SignatureOf(e: Record): Signature {
    Signature(e.experiment, e.scenario, e.comparison, e.protocol, e.hardware, e.runtimeModel, e.engine, e.image)
  }

  // ----- ranking -----

  function Actual(check: Check): real { if check.actual.Some? then check.actual.value else 0.0 }

  /** Time to first answer, then end-to-end time, then answer throughput downwards, then the hash. */
  predicate Better(a: Row, b: Row) {
    var (x, y) := (a.checks, b.checks);
    if Actual(x.ttfa) != Actual(y.ttfa) then Actual(x.ttfa) < Actual(y.ttfa)
    else if Actual(x.endToEnd) != Actual(y.endToEnd) then Actual(x.endToEnd) < Actual(y.endToEnd)
    else if Actual(x.tokensPerSecond) != Actual(y.tokensPerSecond)
      then Actual(x.tokensPerSecond) > Actual(y.tokensPerSecond)
    else a.sha < b.sha
  }

  predicate IsEligible(r: Row) { r.eligible }
  function ShaOf(r: Row): int { r.sha }
  function IdOf(r: Row): nat { r.id }

  function Ranked(rows: seq<Row>): seq<Row> { SortBy(Filter(IsEligible, rows), Better) }

  predicate Comparable(rows: seq<Row>) {
    rows != [] && forall i :: 0 <= i < |rows| ==> rows[i].signature == rows[0].signature
  }

  predicate Sufficient(ledger: Ledger<Row>) { Comparable(ledger.rows) && |ledger.rows| >= 3 && ledger.rejected == 0 }

  function Judging(c: Contract): Record -> Option<Row> { (e: Record) => Judge(e, c) }

  function Decide(evidences: seq<Record>, c: Contract): Decision {
    var ledger := Accept(Judging(c), ShaOf, evidences);
    var ranked := Ranked(ledger.rows);
    if !Sufficient(ledger) then Decision(InsufficientEvidence, None, [])
    else if ranked == [] then Decision(NoneMeets, None, [])
    else Decision(Recommended, Some(ranked[0].id), Map(IdOf, ranked))
  }

  predicate FiniteTargets(c: Contract) {
    && (c.ttfa.Some? ==> c.ttfa.value.Finite(0.0)) && (c.endToEnd.Some? ==> c.endToEnd.value.Finite(0.0))
    && (c.tokensPerSecond.Some? ==> c.tokensPerSecond.value.Finite(0.0))
    && (c.errorRate.Some? ==> c.errorRate.value.Finite(0.0))
    && c.quality.minimumScore.Finite(0.0)
  }

  /** The decision, or `None` for a contract that is refused before any evidence is looked at. */
  method RecommendProfile(evidences: seq<Record>, c: Contract) returns (decision: Option<Decision>)
    ensures decision == if Contracts.Sound(c.workload) && FiniteTargets(c) then Some(Decide(evidences, c)) else None
  {
    var problems := Contracts.ValidateContract(c.workload);
    if problems.None? || problems.value != [] || !FiniteTargets(c) {
      return None;
    }
    var rows, rejected := Collect(Judging(c), ShaOf, evidences);
    var comparable := Comparable(rows);
    var sufficient := comparable && |rows| >= 3 && rejected == 0;
    var ranked := SortBy(Filter(IsEligible, rows), Better);
    var verdict := if !sufficient then InsufficientEvidence else if ranked != [] then Recommended else NoneMeets;
    var recommended := if sufficient && ranked != [] then Some(ranked[0].id) else None;
    decision := Some(Decision(verdict, recommended, if sufficient then Map(IdOf, ranked) else []));
    assert ranked == [] ==> Map(IdOf, ranked) == [];
  }

  // ----- order does not matter -----

  ghost function RowZone(rows: seq<Row>): iset<Row> { iset r | r in rows }

  lemma BetterOrders(rows: seq<Row>)
    requires Distinct(Map(ShaOf, rows))
    ensures OrdersOn(RowZone(rows), Better) && Distinct(rows)
  {
    var shas := Map(ShaOf, rows);
    forall i, j | 0 <= i < j < |rows| ensures rows[i] != rows[j] && rows[i].sha != rows[j].sha {
      assert shas[i] != shas[j];
    }
    forall x, y | x in rows && y in rows && x != y ensures Better(x, y) || Better(y, x) {
      var i :| 0 <= i < |rows| && rows[i] == x;
      var j :| 0 <= j < |rows| && rows[j] == y;
      assert x.sha != y.sha;
    }
  }

  lemma RankedReordered(rows: seq<Row>, others: seq<Row>)
    requires multiset(rows) == multiset(others) && Distinct(Map(ShaOf, rows))
    ensures Ranked(rows) == Ranked(others)
  {
    BetterOrders(rows);
    FilterReordered(IsEligible, rows, others);
    FilterDistinct(IsEligible, rows);
    var eligible := Filter(IsEligible, rows);
    forall i | 0 <= i < |eligible| ensures eligible[i] in RowZone(rows) {
      assert eligible[i] in eligible;
    }
    SortReordered(RowZone(rows), eligible, Filter(IsEligible, others), Better);
  }

  lemma ComparableReordered(rows: seq<Row>, others: seq<Row>)
    requires multiset(rows) == multiset(others) && Comparable(rows)
    ensures Comparable(others)
  {
    SameMembers(rows, others);
    forall i | 0 <= i < |others| ensures others[i].signature == others[0].signature {
      assert others[i] in rows && others[0] in rows;
    }
  }

  lemma SufficientReordered(s: seq<Record>, t: seq<Record>, c: Contract)
    requires multiset(s) == multiset(t) && Sufficient(Accept(Judging(c), ShaOf, s))
    ensures Decide(s, c) == Decide(t, c) && Sufficient(Accept(Judging(c), ShaOf, t))
  {
    NothingRejected(Judging(c), ShaOf, s);
    CleanReordered(Judging(c), ShaOf, s, t);
    NothingRejected(Judging(c), ShaOf, t);
    var rows, others := Rows(Judging(c), s), Rows(Judging(c), t);
    SameMembers(rows, others);
    ComparableReordered(rows, others);
    RankedReordered(rows, others);
  }

  /** The decision does not depend on the order in which evidence is listed. */
  lemma DecideReordered(s: seq<Record>, t: seq<Record>, c: Contract)
    requires multiset(s) == multiset(t)
    ensures Decide(s, c) == Decide(t, c)
  {
    if Sufficient(Accept(Judging(c), ShaOf, s)) {
      SufficientReordered(s, t, c);
    } else if Sufficient(Accept(Judging(c), ShaOf, t)) {
      SufficientReordered(t, s, c);
    }
  }

  // ----- stored results do not matter -----

  /** What is left of a record without its stored results. */
  function RawRecord(e: Record): Record {
    e.(probe := Map(BareBatch, e.probe), assistant := Map(BareBatch, e.assistant), stored := Stored([], []))
  }

  lemma RowIgnoresObservations(e: Record, f: Record, c: Contract, probe: Option<Replay>, assistant: Option<Replay>)
    requires RawRecord(e) == RawRecord(f)
    ensures RowFor(e, c, probe, assistant) == RowFor(f, c, probe, assistant)
  {
    var g := RawRecord(e);
    assert RowFor(e, c, probe, assistant) == RowFor(g, c, probe, assistant);
  }

  lemma ModeIgnoresStored(e: Record, f: Record, mode: Mode)
    requires RawRecord(e) == RawRecord(f)
    ensures Replayed(ObservedIn(e, mode), PolicyOf(e)) == Replayed(ObservedIn(f, mode), PolicyOf(f))
  {
    var g, h := RawRecord(e), RawRecord(f);
    assert g.probe == h.probe && g.assistant == h.assistant;
    assert g.protocol == e.protocol == f.protocol && g.experiment == e.experiment == f.experiment;
    assert g.comparison == e.comparison == f.comparison;
    ReplayIgnoresStored(ObservedIn(e, mode), ObservedIn(f, mode), PolicyOf(e));
  }

  lemma JudgeIgnoresStored(e: Record, f: Record, c: Contract)
    requires RawRecord(e) == RawRecord(f)
    ensures Judge(e, c) == Judge(f, c)
  {
    ModeIgnoresStored(e, f, Probe);
    ModeIgnoresStored(e, f, Assistant);
    RowIgnoresObservations(e, f, c, Replayed(ObservedIn(e, Probe), PolicyOf(e)),
                           Replayed(ObservedIn(e, Assistant), PolicyOf(e)));
  }

  lemma RawAt(s: seq<Record>, t: seq<Record>, i: nat)
    requires Map(RawRecord, s) == Map(RawRecord, t) && i < |s|
    ensures |s| == |t| && RawRecord(s[i]) == RawRecord(t[i])
  {
    var x, y := Map(RawRecord, s), Map(RawRecord, t);
    assert |x| == |y| && x[i] == y[i];
  }

  /**
   * Records that differ only in stored quality, aggregates, summaries and assessments pass the same
   * gates and decide the same.
   */
  lemma DecideIgnoresStored(s: seq<Record>, t: seq<Record>, c: Contract)
    requires Map(RawRecord, s) == Map(RawRecord, t)
    ensures Accept(Judging(c), ShaOf, s) == Accept(Judging(c), ShaOf, t) && Decide(s, c) == Decide(t, c)
  {
    assert |Map(RawRecord, s)| == |Map(RawRecord, t)|;
    forall i | 0 <= i < |s| ensures Judging(c)(s[i]) == Judging(c)(t[i]) {
      RawAt(s, t, i);
      JudgeIgnoresStored(s[i], t[i], c);
    }
    AcceptAlike(Judging(c), ShaOf, s, t);
  }

  // ----- what eligibility means -----

  /** Within `limit` milliseconds, after rounding. */
  predicate WithinMs(limit: real, v: real) { Round(v, 4) * 1000.0 <= limit }

  ghost function Limit(limit: real): real -> bool { (v: real) => WithinMs(limit, v) }

  lemma LimitDownward(limit: real)
    ensures Downward(Limit(limit))
  {
    forall a, b | a <= b && Limit(limit)(b) ensures Limit(limit)(a) {
      RoundMonotone(a, b, 4);
    }
  }

  /** At least 95% of the values are within the limit. */
  ghost predicate MostWithin(s: seq<real>, limit: real) { 100 * CountIf(Limit(limit), s) >= 95 * |s| }

  lemma LatencyMeans(s: seq<real>, limit: real)
    ensures LatencyCheck(P95(MetricSummary(s)), limit).pass <==> s != [] && MostWithin(s, limit)
  {
    if s != [] {
      LimitDownward(limit);
      CdivBounds(95 * |s|, 100);
      PercentileMeetsLimit(s, 95, Limit(limit));
      assert WithinMs(limit, Percentile(s, 95).value) == Limit(limit)(Percentile(s, 95).value);
    }
  }

  lemma FloorMeans(s: seq<real>, target: real)
    ensures FloorCheck(Minimum(MetricSummary(s)), target).pass <==> s != [] && AllReach(s, target)
  {
    if s != [] {
      MinimumReaches(s, target);
    }
  }

  lemma ScoreMeans(s: seq<real>, target: real)
    requires s != []
    ensures Round(Least(s), 4) >= target <==> AllReach(s, target)
  {
    LeastMeans(s);
    forall v | v in s ensures Round(v, 4) >= Round(Least(s), 4) {
      RoundMonotone(Least(s), v, 4);
    }
  }

  lemma WholeShare(m: nat, n: nat)
    requires 0 < n && m <= n
    ensures m as real / n as real == 1.0 <==> m == n
  {
    if m as real / n as real == 1.0 {
      assert m as real == (m as real / n as real) * n as real;
    }
  }

  lemma RateMeans(p: Policy, rs: seq<Request>)
    ensures PassRate(MandatoryPasses(p, rs), |rs|) == 1.0 <==> rs != [] && AllMandatory(p, rs)
  {
    MandatoryAll(p, rs);
    if rs != [] {
      WholeShare(MandatoryPasses(p, rs), |rs|);
    }
  }

  /** The numbers of the counted requests, and how many failed beside them. */
  datatype Sample = Sample(ttfa: seq<real>, elapsed: seq<real>, rates: seq<real>, scores: seq<real>, failed: int)

  function Ttfas(rs: seq<Request>): seq<real> {
    seq(|rs|, i requires 0 <= i < |rs| => ValueOf(rs[i].performance.ttfa))
  }

  function Elapseds(rs: seq<Request>): seq<real> {
    seq(|rs|, i requires 0 <= i < |rs| => ValueOf(rs[i].performance.elapsed))
  }

  function Rates(rs: seq<Request>): seq<real> {
    seq(|rs|, i requires 0 <= i < |rs| => ValueOf(rs[i].performance.tokensPerSecond))
  }

  /** A fifth for each check passed; nothing for an answer that did not end by itself. */
  function Scores(rs: seq<Request>): seq<real> {
    seq(|rs|, i requires 0 <= i < |rs| =>
      if rs[i].performance.stopped then Round(rs[i].answer.Passed() as real / 5.0, 4) else 0.0)
  }

  ghost function SampleOf(bs: seq<Batch>): Sample {
    var rs := AllSuccesses(bs);
    Sample(Ttfas(rs), Elapseds(rs), Rates(rs), Scores(rs), FailuresIn(bs))
  }

  lemma SampleMapped(rs: seq<Request>)
    ensures Ttfas(rs) == Map(TtfaOf, rs) && Elapseds(rs) == Map(ElapsedOf, rs) && Rates(rs) == Map(RateOf, rs)
    ensures Scores(rs) == Map(FreshScore, rs)
  {
  }

  ghost predicate AllReach(s: seq<real>, target: real) { forall v :: v in s ==> Round(v, 4) >= target }

  predicate FewFail(failed: int, succeeded: nat, share: real) {
    failed as real <= share * (failed + succeeded) as real
  }

  ghost predicate SampleMeets(s: Sample, c: Contract)
    requires HasTargets(c)
  {
    && s.scores != []
    && MostWithin(s.ttfa, c.ttfa.value.value) && MostWithin(s.elapsed, c.endToEnd.value.value)
    && AllReach(s.rates, c.tokensPerSecond.value.value)
    && FewFail(s.failed, |s.scores|, c.errorRate.value.value)
    && AllReach(s.scores, c.quality.minimumScore.value)
  }

  /** The objectives, stated on the observed requests of the contract's mode. */
  ghost predicate MeetsObjectives(e: Record, c: Contract)
    requires HasTargets(c)
  {
    var bs := BatchesOf(e, c.response.defaultMode);
    SampleMeets(SampleOf(bs), c) && forall r :: r in AllSuccesses(bs) ==> MeetsRules(e, r)
  }

  /** The answer ended by itself and has what the record's rules demand. */
  predicate MeetsRules(e: Record, r: Request) {
    var quality, response := e.comparison.quality, e.comparison.response;
    && r.performance.stopped
    && (quality.grounding ==> r.answer.order && r.answer.activity && r.answer.noForbidden)
    && (quality.citation ==> r.answer.source)
    && (quality.structured || response.structured ==> r.answer.structured)
  }

  lemma RulesAreMandatory(e: Record, rs: seq<Request>)
    ensures AllMandatory(PolicyOf(e), rs) <==> forall r :: r in rs ==> MeetsRules(e, r)
  {
    assert forall r :: Mandatory(PolicyOf(e), r) <==> MeetsRules(e, r);
  }

  /** A summary drawn from this sample. */
  ghost predicate Summarizes(t: Summary, s: Sample) {
    && t.requests == |s.ttfa| == |s.elapsed| == |s.rates| == |s.scores| && t.failed == s.failed
    && t.ttfa == MetricSummary(s.ttfa) && t.elapsed == MetricSummary(s.elapsed)
    && t.tokensPerSecond == MetricSummary(s.rates)
    && t.scoreMin == if s.scores == [] then None else Some(Round(Least(s.scores), 4))
  }

  lemma ReplaySummarizes(o: Observed, p: Policy)
    requires ValidObserved(o)
    ensures Summarizes(Replayed(o, p).value.summary, SampleOf(o.batches))
  {
    ReplayedMeans(o, p);
    SampleMapped(AllSuccesses(o.batches));
  }

  lemma ShareMeans(part: real, total: real, share: real)
    requires total > 0.0
    ensures part / total <= share <==> part <= share * total
  {
    assert part == (part / total) * total;
  }

  lemma ErrorRateMeans(failed: nat, succeeded: nat, share: real)
    requires succeeded > 0
    ensures ErrorCheck(ErrorRate(failed, succeeded), share).pass <==> FewFail(failed, succeeded, share)
  {
    ShareMeans(failed as real, (failed + succeeded) as real, share);
  }

  lemma AssessMeans(r: Replay, s: Sample, c: Contract)
    requires HasTargets(c) && Summarizes(r.summary, s) && s.failed >= 0
    ensures Assess(r, c).Pass() <==> SampleMeets(s, c) && r.mandatoryRate == 1.0
  {
    LatencyMeans(s.ttfa, c.ttfa.value.value);
    LatencyMeans(s.elapsed, c.endToEnd.value.value);
    FloorMeans(s.rates, c.tokensPerSecond.value.value);
    if s.scores != [] {
      ErrorRateMeans(s.failed, |s.scores|, c.errorRate.value.value);
      ScoreMeans(s.scores, c.quality.minimumScore.value);
    }
  }

  lemma ChecksMean(e: Record, c: Contract)
    requires HasTargets(c) && ValidObserved(ObservedIn(e, c.response.defaultMode))
    ensures Assess(Replayed(ObservedIn(e, c.response.defaultMode), PolicyOf(e)).value, c).Pass() <==>
            MeetsObjectives(e, c)
  {
    var o, p := ObservedIn(e, c.response.defaultMode), PolicyOf(e);
    ReplaySummarizes(o, p);
    FailuresNeverNegative(o.batches);
    AssessMeans(Replayed(o, p).value, SampleOf(o.batches), c);
    RateMeans(p, AllSuccesses(o.batches));
    RulesAreMandatory(e, AllSuccesses(o.batches));
  }

  lemma RoundNeverNegative(x: real, digits: nat)
    requires x >= 0.0
    ensures Round(x, digits) >= 0.0
  {
    RoundMonotone(0.0, x, digits);
  }

  lemma MetricsNeverNegative(s: seq<real>)
    requires s != [] && NoneNegative(s)
    ensures MetricSummary(s).value.p95 >= 0.0 && MetricSummary(s).value.min >= 0.0
  {
    SortLength(s);
    RankInside(95, |s|);
    SortKeeps(s, Less);
    SameMembers(s, SortReals(s));
    assert Percentile(s, 95).value in SortReals(s) && SortReals(s)[0] in SortReals(s);
    RoundNeverNegative(Percentile(s, 95).value, 4);
    RoundNeverNegative(SortReals(s)[0], 4);
  }

  ghost predicate NoneNegative(s: seq<real>) { forall v :: v in s ==> v >= 0.0 }

  lemma SampleNeverNegative(o: Observed)
    requires ValidObserved(o)
    ensures var s := SampleOf(o.batches);
            NoneNegative(s.ttfa) && NoneNegative(s.elapsed) && NoneNegative(s.rates) && NoneNegative(s.scores)
            && s.failed >= 0
  {
    forall k, i | 0 <= k < |o.batches| && 0 <= i < |o.batches[k].requests|
      ensures ValidRequest(o.batches[k].requests[i])
    {
      assert ValidBatch(o, k, o.batches[k]);
    }
    CountedAreValid(o.batches);
    FailuresNeverNegative(o.batches);
    var rs := AllSuccesses(o.batches);
    forall i | 0 <= i < |rs|
      ensures TtfaOf(rs[i]) >= 0.0 && ElapsedOf(rs[i]) >= 0.0 && RateOf(rs[i]) >= 0.0 && FreshScore(rs[i]) >= 0.0
    {
      assert rs[i] in rs;
      RoundNeverNegative(rs[i].answer.Passed() as real / 5.0, 4);
    }
  }

  lemma ScoreUsable(s: seq<real>)
    requires s != [] && NoneNegative(s)
    ensures Round(Least(s), 4) >= 0.0
  {
    LeastMeans(s);
    RoundNeverNegative(Least(s), 4);
  }

  lemma MetricUsable(s: seq<real>, limit: real)
    requires NoneNegative(s)
    ensures Usable(LatencyCheck(P95(MetricSummary(s)), limit), |s|)
    ensures Usable(FloorCheck(Minimum(MetricSummary(s)), limit), |s|)
  {
    if s != [] {
      MetricsNeverNegative(s);
      RoundNeverNegative(MetricSummary(s).value.p95 * 1000.0, 2);
    }
  }

  lemma ErrorUsable(failed: int, succeeded: nat, target: real)
    requires failed >= 0
    ensures Usable(ErrorCheck(ErrorRate(failed, succeeded), target), succeeded)
  {
    if failed + succeeded != 0 {
      assert failed as real / (failed + succeeded) as real >= 0.0;
    }
    RoundNeverNegative(ErrorRate(failed, succeeded), 4);
  }

  lemma AssessmentUsable(r: Replay, s: Sample, c: Contract)
    requires HasTargets(c) && Summarizes(r.summary, s)
    requires NoneNegative(s.ttfa) && NoneNegative(s.elapsed) && NoneNegative(s.rates) && NoneNegative(s.scores)
    requires s.failed >= 0
    ensures AllUsable(Assess(r, c), r.summary.requests)
  {
    MetricUsable(s.ttfa, c.ttfa.value.value);
    MetricUsable(s.elapsed, c.endToEnd.value.value);
    MetricUsable(s.rates, c.tokensPerSecond.value.value);
    ErrorUsable(s.failed, r.summary.requests, c.errorRate.value.value);
    if s.scores != [] {
      ScoreUsable(s.scores);
    }
  }

  lemma MetricsUsable(o: Observed, p: Policy, c: Contract)
    requires HasTargets(c) && ValidObserved(o)
    ensures var r := Replayed(o, p).value; AllUsable(Assess(r, c), r.summary.requests)
  {
    ReplaySummarizes(o, p);
    SampleNeverNegative(o);
    AssessmentUsable(Replayed(o, p).value, SampleOf(o.batches), c);
  }

  lemma RowExactly(e: Record, c: Contract, probe: Option<Replay>, assistant: Option<Replay>)
    requires HasTargets(c) && probe.Some? && assistant.Some?
    requires var r := if c.response.defaultMode.Probe? then probe.value else assistant.value;
             AllUsable(Assess(r, c), r.summary.requests)
    ensures RowFor(e, c, probe, assistant).Some? <==> Admissible(e, c)
  {
  }

  /**
   * A record gives a row exactly when it passes the gates and both modes' observations are valid;
   * the metric gate never fires.
   */
  lemma JudgedExactly(e: Record, c: Contract)
    ensures Judge(e, c).Some? <==>
      Admissible(e, c) && HasTargets(c) && ValidObserved(ObservedIn(e, Probe))
      && ValidObserved(ObservedIn(e, Assistant))
  {
    var probe, assistant := ObservedIn(e, Probe), ObservedIn(e, Assistant);
    if HasTargets(c) && ValidObserved(probe) && ValidObserved(assistant) {
      MetricsUsable(if c.response.defaultMode.Probe? then probe else assistant, PolicyOf(e), c);
      RowExactly(e, c, Replayed(probe, PolicyOf(e)), Replayed(assistant, PolicyOf(e)));
    }
  }

  /** A row is eligible exactly when the raw observations of the contract's mode meet every objective. */
  lemma EligibleMeans(e: Record, c: Contract)
    requires Judge(e, c).Some?
    ensures HasTargets(c) && (Judge(e, c).value.eligible <==> MeetsObjectives(e, c))
    ensures Judge(e, c).value.eligible ==>
      var x := Judge(e, c).value.checks;
      x.ttfa.actual.Some? && x.endToEnd.actual.Some? && x.tokensPerSecond.actual.Some? && x.score.actual.Some?
  {
    JudgedExactly(e, c);
    ChecksMean(e, c);
  }

  // ----- what a verdict means -----

  ghost predicate AllGood(evidences: seq<Record>, c: Contract) {
    forall i :: 0 <= i < |evidences| ==> Judge(evidences[i], c).Some?
  }

  ghost predicate DistinctDigests(evidences: seq<Record>) {
    forall i, j :: 0 <= i < j < |evidences| ==> evidences[i].profile.digest != evidences[j].profile.digest
  }

  /** Measured on the same experiment, scenario, comparison and protocol ... */
  predicate Alike(e: Record, f: Record) {
    && e.experiment == f.experiment && e.scenario == f.scenario
    && e.comparison == f.comparison && e.protocol == f.protocol
  }

  /** ... and on the same hardware, model, engine and image. */
  predicate SameMachine(e: Record, f: Record) {
    e.hardware == f.hardware && e.runtimeModel == f.runtimeModel && e.engine == f.engine && e.image == f.image
  }

  ghost predicate MeasuredAlike(evidences: seq<Record>) {
    forall i :: 0 <= i < |evidences| ==> Alike(evidences[i], evidences[0]) && SameMachine(evidences[i], evidences[0])
  }

  lemma SignaturesMean(e: Record, f: Record)
    ensures SignatureOf(e) == SignatureOf(f) <==> Alike(e, f) && SameMachine(e, f)
  {
  }

  /** At least three records, all good, of distinct profiles measured alike. */
  ghost predicate SufficientRecords(evidences: seq<Record>, c: Contract) {
    |evidences| >= 3 && AllGood(evidences, c) && DistinctDigests(evidences) && MeasuredAlike(evidences)
  }

  lemma JudgedRows(evidences: seq<Record>, c: Contract)
    requires AllJudged(Judging(c), evidences)
    ensures var rows := Rows(Judging(c), evidences);
            forall i :: 0 <= i < |evidences| ==>
              && Judge(evidences[i], c) == Some(rows[i])
              && rows[i].sha == evidences[i].profile.digest && rows[i].id == evidences[i].profile.id
              && rows[i].signature == SignatureOf(evidences[i])
  {
    forall i | 0 <= i < |evidences| ensures Judge(evidences[i], c).Some? {
      assert Judging(c)(evidences[i]).Some?;
    }
  }

  lemma AllJudgedMeans(evidences: seq<Record>, c: Contract)
    ensures AllJudged(Judging(c), evidences) <==> AllGood(evidences, c)
  {
    assert forall i :: 0 <= i < |evidences| ==> Judging(c)(evidences[i]) == Judge(evidences[i], c);
  }

  lemma DistinctShas(evidences: seq<Record>, c: Contract)
    requires AllJudged(Judging(c), evidences)
    ensures Distinct(Map(ShaOf, Rows(Judging(c), evidences))) <==> DistinctDigests(evidences)
  {
    JudgedRows(evidences, c);
    var shas := Map(ShaOf, Rows(Judging(c), evidences));
    assert forall i :: 0 <= i < |evidences| ==> shas[i] == evidences[i].profile.digest;
  }

  ghost predicate SignedAs(rows: seq<Row>, evidences: seq<Record>) {
    |rows| == |evidences| && forall i :: 0 <= i < |rows| ==> rows[i].signature == SignatureOf(evidences[i])
  }

  lemma ComparableMeans(rows: seq<Row>, evidences: seq<Record>)
    requires SignedAs(rows, evidences) && rows != []
    ensures Comparable(rows) <==> MeasuredAlike(evidences)
  {
    if Comparable(rows) {
      forall i | 0 <= i < |evidences|
        ensures Alike(evidences[i], evidences[0]) && SameMachine(evidences[i], evidences[0])
      {
        assert rows[i].signature == rows[0].signature;
        SignaturesMean(evidences[i], evidences[0]);
      }
    }
    if MeasuredAlike(evidences) {
      forall i | 0 <= i < |rows| ensures rows[i].signature == rows[0].signature {
        SignaturesMean(evidences[i], evidences[0]);
      }
    }
  }

  lemma RowsSigned(evidences: seq<Record>, c: Contract)
    requires AllJudged(Judging(c), evidences)
    ensures SignedAs(Rows(Judging(c), evidences), evidences)
  {
    JudgedRows(evidences, c);
  }

  /** Enough evidence, in terms of the ledger's rows. */
  lemma SufficientLedger(judge: Record -> Option<Row>, evidences: seq<Record>)
    ensures Sufficient(Accept(judge, ShaOf, evidences)) <==>
      |evidences| >= 3 && Clean(judge, ShaOf, evidences) && Comparable(Rows(judge, evidences))
    ensures Clean(judge, ShaOf, evidences) ==> Accept(judge, ShaOf, evidences).rows == Rows(judge, evidences)
  {
    NothingRejected(judge, ShaOf, evidences);
  }

  lemma SufficientMeans(evidences: seq<Record>, c: Contract)
    ensures Sufficient(Accept(Judging(c), ShaOf, evidences)) <==> SufficientRecords(evidences, c)
    ensures SufficientRecords(evidences, c) ==> Clean(Judging(c), ShaOf, evidences)
    ensures SufficientRecords(evidences, c) ==> Accept(Judging(c), ShaOf, evidences).rows == Rows(Judging(c), evidences)
  {
    SufficientLedger(Judging(c), evidences);
    AllJudgedMeans(evidences, c);
    if AllGood(evidences, c) && |evidences| >= 3 {
      DistinctShas(evidences, c);
      RowsSigned(evidences, c);
      ComparableMeans(Rows(Judging(c), evidences), evidences);
    }
  }

  // ----- the ranking, read off the observations -----

  /** What profiles are compared by: milliseconds to the first answer and to the end, and the least rate. */
  datatype Figures = Figures(ttfa: real, endToEnd: real, rate: real)

  /** The 95th percentile of seconds, to four places, as milliseconds to two. */
  ghost predicate IsP95Ms(s: seq<real>, ms: real) { exists v :: IsP95(s, v) && ms == Round(Round(v, 4) * 1000.0, 2) }

  ghost predicate IsLeastShown(s: seq<real>, least: real) { exists v :: IsLeast(s, v) && least == Round(v, 4) }

  /** The figures of the successful requests in the contract's mode. */
  ghost predicate HasFigures(e: Record, c: Contract, f: Figures) {
    var rs := AllSuccesses(BatchesOf(e, c.response.defaultMode));
    IsP95Ms(Ttfas(rs), f.ttfa) && IsP95Ms(Elapseds(rs), f.endToEnd) && IsLeastShown(Rates(rs), f.rate)
  }

  lemma FiguresUnique(e: Record, c: Contract, f: Figures, g: Figures)
    requires HasFigures(e, c, f) && HasFigures(e, c, g)
    ensures f == g
  {
    var rs := AllSuccesses(BatchesOf(e, c.response.defaultMode));
    P95MsUnique(Ttfas(rs), f.ttfa, g.ttfa);
    P95MsUnique(Elapseds(rs), f.endToEnd, g.endToEnd);
    var v :| IsLeast(Rates(rs), v) && f.rate == Round(v, 4);
    var w :| IsLeast(Rates(rs), w) && g.rate == Round(w, 4);
  }

  lemma P95MsUnique(s: seq<real>, a: real, b: real)
    requires IsP95Ms(s, a) && IsP95Ms(s, b)
    ensures a == b
  {
    var v :| IsP95(s, v) && a == Round(Round(v, 4) * 1000.0, 2);
    var w :| IsP95(s, w) && b == Round(Round(w, 4) * 1000.0, 2);
    P95Unique(s, v, w);
  }

  function FiguresOf(r: Row): Figures {
    Figures(Actual(r.checks.ttfa), Actual(r.checks.endToEnd), Actual(r.checks.tokensPerSecond))
  }

  lemma LatencyReads(s: seq<real>, target: real)
    requires s != []
    ensures var x := LatencyCheck(P95(MetricSummary(s)), target); x.actual.Some? && IsP95Ms(s, x.actual.value)
  {
    MetricReads(s);
  }

  lemma RateReads(s: seq<real>, target: real)
    requires s != []
    ensures var x := FloorCheck(Minimum(MetricSummary(s)), target); x.actual.Some? && IsLeastShown(s, x.actual.value)
  {
    MetricReads(s);
  }

  lemma AssessReads(r: Replay, s: Sample, c: Contract)
    requires HasTargets(c) && Summarizes(r.summary, s)
    ensures var x := Assess(r, c);
            if s.ttfa == [] then x.ttfa.actual.None? && x.endToEnd.actual.None? && x.tokensPerSecond.actual.None?
            else x.ttfa.actual.Some? && x.endToEnd.actual.Some? && x.tokensPerSecond.actual.Some?
                 && IsP95Ms(s.ttfa, x.ttfa.actual.value) && IsP95Ms(s.elapsed, x.endToEnd.actual.value)
                 && IsLeastShown(s.rates, x.tokensPerSecond.actual.value)
  {
    if s.ttfa != [] {
      LatencyReads(s.ttfa, c.ttfa.value.value);
      LatencyReads(s.elapsed, c.endToEnd.value.value);
      RateReads(s.rates, c.tokensPerSecond.value.value);
    }
  }

  /** The numbers a row shows are those of the raw observations; without a success there are none. */
  lemma RowReads(e: Record, c: Contract)
    requires Judge(e, c).Some?
    ensures var r := Judge(e, c).value;
            if AllSuccesses(BatchesOf(e, c.response.defaultMode)) == []
            then r.checks.ttfa.actual.None? && r.checks.endToEnd.actual.None? && r.checks.tokensPerSecond.actual.None?
            else HasFigures(e, c, FiguresOf(r))
  {
    JudgedExactly(e, c);
    var o, p := ObservedIn(e, c.response.defaultMode), PolicyOf(e);
    ReplaySummarizes(o, p);
    AssessReads(Replayed(o, p).value, SampleOf(o.batches), c);
  }

  /** A sooner first answer, then a sooner end, then a higher rate. */
  predicate Faster(x: Figures, y: Figures) {
    || x.ttfa < y.ttfa
    || (x.ttfa == y.ttfa && x.endToEnd < y.endToEnd)
    || (x.ttfa == y.ttfa && x.endToEnd == y.endToEnd && x.rate > y.rate)
  }

  /** Then the smaller hash. */
  predicate FasterOrFirst(x: Figures, i: nat, y: Figures, j: nat) { Faster(x, y) || (x == y && i < j) }

  /** The figures of every record that meets the objectives. */
  ghost predicate Measured(evidences: seq<Record>, c: Contract, figures: seq<Figures>)
    requires HasTargets(c)
  {
    |figures| == |evidences| && forall i :: 0 <= i < |evidences| && MeetsObjectives(evidences[i], c) ==>
      HasFigures(evidences[i], c, figures[i])
  }

  /** `order` lists the records that meet the objectives, all of them, the one ahead first. */
  ghost predicate RanksRecords(evidences: seq<Record>, c: Contract, figures: seq<Figures>, order: seq<nat>)
    requires HasTargets(c) && |figures| == |evidences|
  {
    && (forall k :: 0 <= k < |order| ==> order[k] < |evidences| && MeetsObjectives(evidences[order[k]], c))
    && (forall i: nat :: i < |evidences| && MeetsObjectives(evidences[i], c) ==> i in order)
    && (forall a, b :: 0 <= a < b < |order| ==>
          FasterOrFirst(figures[order[a]], evidences[order[a]].profile.digest,
                        figures[order[b]], evidences[order[b]].profile.digest))
  }

  lemma RowsRanked(evidences: seq<Record>, c: Contract) returns (order: seq<nat>)
    requires AllJudged(Judging(c), evidences) && Distinct(Map(ShaOf, Rows(Judging(c), evidences)))
    ensures var rows := Rows(Judging(c), evidences);
            && RanksBy(rows, IsEligible, Better, order) && |order| == |Ranked(rows)|
            && forall k :: 0 <= k < |order| ==> order[k] < |rows| && rows[order[k]] == Ranked(rows)[k]
  {
    var rows := Rows(Judging(c), evidences);
    BetterOrders(rows);
    order := RankedPlaces(RowZone(rows), rows, IsEligible, Better);
  }

  lemma EligibleRecord(evidences: seq<Record>, c: Contract, i: nat)
    requires AllJudged(Judging(c), evidences) && i < |evidences|
    ensures var r := Rows(Judging(c), evidences)[i];
            && HasTargets(c) && (IsEligible(r) <==> MeetsObjectives(evidences[i], c))
            && (IsEligible(r) ==> HasFigures(evidences[i], c, FiguresOf(r)))
            && r.sha == evidences[i].profile.digest && r.id == evidences[i].profile.id
  {
    JudgedRows(evidences, c);
    EligibleMeans(evidences[i], c);
    RowReads(evidences[i], c);
  }

  /** Row by row: eligible exactly for a record that meets the objectives, with its figures and its hash. */
  ghost predicate RowsTell(evidences: seq<Record>, c: Contract, rows: seq<Row>)
    requires HasTargets(c)
  {
    |rows| == |evidences| && forall i :: 0 <= i < |rows| ==> RowTells(evidences[i], c, rows[i])
  }

  ghost predicate RowTells(e: Record, c: Contract, r: Row)
    requires HasTargets(c)
  {
    && (IsEligible(r) <==> MeetsObjectives(e, c)) && r.sha == e.profile.digest
    && (IsEligible(r) ==> HasFigures(e, c, FiguresOf(r)))
  }

  lemma EligibleRecords(evidences: seq<Record>, c: Contract)
    requires evidences != [] && AllJudged(Judging(c), evidences)
    ensures HasTargets(c) && RowsTell(evidences, c, Rows(Judging(c), evidences))
  {
    EligibleRecord(evidences, c, 0);
    forall i | 0 <= i < |evidences| ensures RowTells(evidences[i], c, Rows(Judging(c), evidences)[i]) {
      EligibleRecord(evidences, c, i);
    }
  }

  lemma BetterIsFaster(x: Row, y: Row)
    requires Better(x, y)
    ensures FasterOrFirst(FiguresOf(x), x.sha, FiguresOf(y), y.sha)
  {
  }

  lemma RowsMeasured(evidences: seq<Record>, c: Contract, rows: seq<Row>)
    requires HasTargets(c) && RowsTell(evidences, c, rows)
    ensures Measured(evidences, c, Map(FiguresOf, rows))
  {
    forall i | 0 <= i < |evidences| && MeetsObjectives(evidences[i], c)
      ensures HasFigures(evidences[i], c, FiguresOf(rows[i]))
    {
      assert RowTells(evidences[i], c, rows[i]);
    }
  }

  lemma RankedMeet(evidences: seq<Record>, c: Contract, rows: seq<Row>, order: seq<nat>)
    requires HasTargets(c) && RowsTell(evidences, c, rows) && RanksBy(rows, IsEligible, Better, order)
    ensures forall k :: 0 <= k < |order| ==> order[k] < |evidences| && MeetsObjectives(evidences[order[k]], c)
    ensures forall i: nat :: i < |evidences| && MeetsObjectives(evidences[i], c) ==> i in order
  {
    forall k | 0 <= k < |order| ensures MeetsObjectives(evidences[order[k]], c) {
      assert RowTells(evidences[order[k]], c, rows[order[k]]);
    }
    forall i: nat | i < |evidences| && MeetsObjectives(evidences[i], c) ensures i in order {
      assert RowTells(evidences[i], c, rows[i]);
    }
  }

  lemma RowBeforeRow(e: Record, f: Record, c: Contract, x: Row, y: Row)
    requires HasTargets(c) && RowTells(e, c, x) && RowTells(f, c, y) && Better(x, y)
    ensures FasterOrFirst(FiguresOf(x), e.profile.digest, FiguresOf(y), f.profile.digest)
  {
    BetterIsFaster(x, y);
  }

  lemma RanksTranslated(evidences: seq<Record>, c: Contract, rows: seq<Row>, order: seq<nat>)
    requires HasTargets(c) && RowsTell(evidences, c, rows) && RanksBy(rows, IsEligible, Better, order)
    ensures RanksRecords(evidences, c, Map(FiguresOf, rows), order)
  {
    RankedMeet(evidences, c, rows, order);
    forall a, b | 0 <= a < b < |order|
      ensures FasterOrFirst(FiguresOf(rows[order[a]]), evidences[order[a]].profile.digest,
                            FiguresOf(rows[order[b]]), evidences[order[b]].profile.digest)
    {
      RowBeforeRow(evidences[order[a]], evidences[order[b]], c, rows[order[a]], rows[order[b]]);
    }
  }

  /** Whether some record meets the objectives. */
  ghost predicate AnyMeets(evidences: seq<Record>, c: Contract)
    requires HasTargets(c)
  {
    exists i :: 0 <= i < |evidences| && MeetsObjectives(evidences[i], c)
  }

  lemma MeetsIsRanked(evidences: seq<Record>, c: Contract, figures: seq<Figures>, order: seq<nat>)
    requires HasTargets(c) && |figures| == |evidences| && RanksRecords(evidences, c, figures, order)
    ensures AnyMeets(evidences, c) <==> order != []
  {
    if order != [] {
      assert MeetsObjectives(evidences[order[0]], c);
    }
    if AnyMeets(evidences, c) {
      var i: nat :| i < |evidences| && MeetsObjectives(evidences[i], c);
      assert i in order;
    }
  }

  /** The decision is made of the records at these positions. */
  ghost predicate DecidedBy(d: Decision, evidences: seq<Record>, order: seq<nat>) {
    && |d.ranking| == |order|
    && (forall k :: 0 <= k < |order| ==> order[k] < |evidences| && d.ranking[k] == evidences[order[k]].profile.id)
    && (if order == [] then d.verdict == NoneMeets && d.recommended == None
        else d.verdict == Recommended && d.recommended == Some(d.ranking[0]))
  }

  function RankedDecision(ranked: seq<Row>): Decision {
    if ranked == [] then Decision(NoneMeets, None, [])
    else Decision(Recommended, Some(ranked[0].id), Map(IdOf, ranked))
  }

  lemma DecideRanks(evidences: seq<Record>, c: Contract)
    requires SufficientRecords(evidences, c) && AllJudged(Judging(c), evidences)
    ensures Decide(evidences, c) == RankedDecision(Ranked(Rows(Judging(c), evidences)))
  {
    SufficientMeans(evidences, c);
  }

  ghost predicate SameIds(rows: seq<Row>, evidences: seq<Record>) {
    |rows| == |evidences| && forall i :: 0 <= i < |rows| ==> rows[i].id == evidences[i].profile.id
  }

  lemma RowsIdentified(evidences: seq<Record>, c: Contract)
    requires AllJudged(Judging(c), evidences)
    ensures SameIds(Rows(Judging(c), evidences), evidences)
  {
    JudgedRows(evidences, c);
  }

  lemma RankedDecisionReads(ranked: seq<Row>, rows: seq<Row>, evidences: seq<Record>, order: seq<nat>)
    requires |order| == |ranked| && SameIds(rows, evidences)
    requires forall k :: 0 <= k < |order| ==> order[k] < |rows| && rows[order[k]] == ranked[k]
    ensures DecidedBy(RankedDecision(ranked), evidences, order)
  {
  }

  /**
   * The verdicts, the ranking and the recommendation, read off the evidence: the figures of the
   * records that meet every objective, and their order by those figures.
   */
  lemma VerdictMeans(evidences: seq<Record>, c: Contract) returns (figures: seq<Figures>, order: seq<nat>)
    ensures var d := Decide(evidences, c);
            && (d.verdict == InsufficientEvidence <==> !SufficientRecords(evidences, c))
            && (d.verdict != Recommended ==> d.recommended == None && d.ranking == [])
    ensures SufficientRecords(evidences, c) ==> HasTargets(c)
    ensures SufficientRecords(evidences, c) ==>
              && Measured(evidences, c, figures) && RanksRecords(evidences, c, figures, order)
              && DecidedBy(Decide(evidences, c), evidences, order)
              && (Decide(evidences, c).verdict == Recommended <==> AnyMeets(evidences, c))
  {
    SufficientMeans(evidences, c);
    figures, order := [], [];
    if SufficientRecords(evidences, c) {
      order := RowsRanked(evidences, c);
      EligibleRecords(evidences, c);
      RowsMeasured(evidences, c, Rows(Judging(c), evidences));
      RanksTranslated(evidences, c, Rows(Judging(c), evidences), order);
      figures := Map(FiguresOf, Rows(Judging(c), evidences));
      DecideRanks(evidences, c);
      RowsIdentified(evidences, c);
      RankedDecisionReads(Ranked(Rows(Judging(c), evidences)), Rows(Judging(c), evidences), evidences, order);
      MeetsIsRanked(evidences, c, figures, order);
    }
  }
}
