// Comparing deployments on different hardware and models: licence and cost gates on top of the profile gates.
module Deployment {
  import opened Acceptance
  import opened Evidence
  import opened Ranking
  import opened Recommend
  import opened Wrappers

  import Contracts

  datatype License = Approved | ReviewRequired | Restricted | Unknown

  datatype Policy = PerformanceFirst | CostFirst | Unsupported

  /** Metadata for one profile, as given in the manifest. */
  datatype Meta = Meta(profile: int, wellFormedId: bool, labelled: bool, license: License,
                       cost: Option<Num>, costSourced: bool, power: Option<Num>)

  datatype Manifest = Manifest(schemaKnown: bool, policy: Policy, candidates: seq<Meta>)

  datatype Cohort = Cohort(experiment: Experiment, scenario: int, comparison: Comparison, protocol: Protocol)

  datatype Deployed = Deployed(row: Row, license: License, cost: Option<real>)

  datatype Outcome = Outcome(verdict: Verdict, selected: Option<nat>, ranking: seq<nat>)

  // ----- the manifest -----

  predicate ValidMeta(m: Meta) {
    && m.wellFormedId && m.labelled && !m.license.Unknown?
    && (m.cost.Some? ==> m.cost.value.Finite(0.0) && m.costSourced)
    && (m.power.Some? ==> m.power.value.Num? && m.power.value.value > 0.0)
  }

  function ProfileOf(m: Meta): int { m.profile }

  ghost predicate ValidManifest(m: Manifest) {
    && m.schemaKnown && !m.policy.Unsupported? && |m.candidates| >= 2
    && (forall i :: 0 <= i < |m.candidates| ==> ValidMeta(m.candidates[i]))
    && Distinct(Map(ProfileOf, m.candidates))
  }

  /** `index` finds exactly these entries, each under its own profile. */
  ghost predicate Indexes(index: map<int, Meta>, metas: seq<Meta>) {
    && (forall i :: 0 <= i < |metas| ==> metas[i].profile in index && index[metas[i].profile] == metas[i])
    && (forall k :: k in index ==> exists i :: 0 <= i < |metas| && metas[i].profile == k)
  }

  ghost predicate GoodSoFar(metas: seq<Meta>, i: nat)
    requires i <= |metas|
  {
    (forall j :: 0 <= j < i ==> ValidMeta(metas[j])) && forall j, k :: 0 <= j < k < i ==>
      metas[j].profile != metas[k].profile
  }

  lemma GoodAtEnd(metas: seq<Meta>)
    requires GoodSoFar(metas, |metas|)
    ensures Distinct(Map(ProfileOf, metas))
  {
  }

  lemma RepeatedProfile(metas: seq<Meta>, found: map<int, Meta>, i: nat)
    requires i < |metas| && Indexes(found, metas[..i]) && metas[i].profile in found
    ensures !Distinct(Map(ProfileOf, metas))
  {
    var j :| 0 <= j < i && metas[..i][j].profile == metas[i].profile;
    assert Map(ProfileOf, metas)[j] == Map(ProfileOf, metas)[i];
  }

  lemma NewProfile(metas: seq<Meta>, found: map<int, Meta>, i: nat)
    requires i < |metas| && GoodSoFar(metas, i) && Indexes(found, metas[..i]) && metas[i].profile !in found
    requires ValidMeta(metas[i])
    ensures GoodSoFar(metas, i + 1)
  {
    forall j | 0 <= j < i ensures metas[j].profile != metas[i].profile {
      assert metas[..i][j].profile in found;
    }
  }

  /** Refused exactly when it is invalid; otherwise every entry is found under its profile. */
  method ManifestByProfile(m: Manifest) returns (index: Option<map<int, Meta>>)
    ensures index.Some? <==> ValidManifest(m)
    ensures index.Some? ==> Indexes(index.value, m.candidates)
  {
    if !m.schemaKnown || m.policy.Unsupported? || |m.candidates| < 2 {
      return None;
    }
    var found: map<int, Meta> := map[];
    for i := 0 to |m.candidates|
      invariant Indexes(found, m.candidates[..i]) && GoodSoFar(m.candidates, i)
    {
      var meta := m.candidates[i];
      if !ValidMeta(meta) {
        return None;
      }
      if meta.profile in found {
        RepeatedProfile(m.candidates, found, i);
        return None;
      }
      NewProfile(m.candidates, found, i);
      IndexNext(found, m.candidates, i);
      found := found[meta.profile := meta];
    }
    assert m.candidates[..|m.candidates|] == m.candidates;
    GoodAtEnd(m.candidates);
    index := Some(found);
  }

  lemma IndexNext(found: map<int, Meta>, metas: seq<Meta>, i: nat)
    requires i < |metas| && Indexes(found, metas[..i]) && metas[i].profile !in found
    ensures Indexes(found[metas[i].profile := metas[i]], metas[..i + 1])
  {
    var more, shown := found[metas[i].profile := metas[i]], metas[..i + 1];
    forall j | 0 <= j < i + 1 ensures metas[j].profile in more && more[metas[j].profile] == metas[j] {
      if j < i {
        assert metas[..i][j] == metas[j];
      }
    }
    forall k | k in more ensures exists j :: 0 <= j < |shown| && shown[j].profile == k {
      if k == metas[i].profile {
        assert shown[i].profile == k;
      } else {
        var j :| 0 <= j < i && metas[..i][j].profile == k;
        assert shown[j].profile == k;
      }
    }
  }

  // ----- rows -----

  function CohortOf(r: Row): Cohort {
    Cohort(r.signature.experiment, r.signature.scenario, r.signature.comparison, r.signature.protocol)
  }

  function CostOf(m: Meta): Option<real> {
    if m.cost.Some? && m.cost.value.Num? then Some(m.cost.value.value) else None
  }

  /** Only an approved licence keeps a row eligible. */
  function Deploy(r: Row, m: Meta): Deployed {
    Deployed(r.(eligible := r.eligible && m.license.Approved?), m.license, CostOf(m))
  }

  function JudgeDeployment(e: Record, c: Contract, index: map<int, Meta>): Option<Deployed> {
    var row := Judge(e, c);
    if row.None? || row.value.id !in index then None else Some(Deploy(row.value, index[row.value.id]))
  }

  function Deploying(c: Contract, index: map<int, Meta>): Record -> Option<Deployed> {
    (e: Record) => JudgeDeployment(e, c, index)
  }

  function DeployedId(d: Deployed): int { d.row.id }

  function OutcomeId(d: Deployed): nat { d.row.id }

  predicate MayDeploy(d: Deployed) { d.row.eligible }

  // ----- ranking -----

  /** A missing cost counts as infinite. */
  predicate Cheaper(a: Option<real>, b: Option<real>) { a.Some? && (b.None? || a.value < b.value) }

  predicate CostAhead(a: Deployed, b: Deployed) {
    var (x, y) := (a.row.checks, b.row.checks);
    if a.cost != b.cost then Cheaper(a.cost, b.cost)
    else if Actual(x.ttfa) != Actual(y.ttfa) then Actual(x.ttfa) < Actual(y.ttfa)
    else if Actual(x.endToEnd) != Actual(y.endToEnd) then Actual(x.endToEnd) < Actual(y.endToEnd)
    else a.row.sha < b.row.sha
  }

  predicate SpeedAhead(a: Deployed, b: Deployed) {
    var (x, y) := (a.row.checks, b.row.checks);
    if Actual(x.ttfa) != Actual(y.ttfa) then Actual(x.ttfa) < Actual(y.ttfa)
    else if Actual(x.endToEnd) != Actual(y.endToEnd) then Actual(x.endToEnd) < Actual(y.endToEnd)
    else if Actual(x.tokensPerSecond) != Actual(y.tokensPerSecond)
      then Actual(x.tokensPerSecond) > Actual(y.tokensPerSecond)
    else if a.cost != b.cost then Cheaper(a.cost, b.cost)
    else a.row.sha < b.row.sha
  }

  function Ahead(policy: Policy): (Deployed, Deployed) -> bool { if policy.CostFirst? then CostAhead else SpeedAhead }

  function RankedBy(policy: Policy, rows: seq<Deployed>): seq<Deployed> {
    SortBy(Filter(MayDeploy, rows), Ahead(policy))
  }

  predicate SameCohort(rows: seq<Deployed>) {
    rows != [] && forall i :: 0 <= i < |rows| ==> CohortOf(rows[i].row) == CohortOf(rows[0].row)
  }

  predicate CostMissing(policy: Policy, rows: seq<Deployed>) {
    policy.CostFirst? && exists i :: 0 <= i < |rows| && rows[i].row.eligible && rows[i].cost.None?
  }

  predicate Enough(policy: Policy, ledger: Ledger<Deployed>) {
    SameCohort(ledger.rows) && |ledger.rows| >= 2 && ledger.rejected == 0 && !CostMissing(policy, ledger.rows)
  }

  function DecideDeployment(evidences: seq<Record>, c: Contract, index: map<int, Meta>, policy: Policy): Outcome {
    var ledger := Accept(Deploying(c, index), DeployedId, evidences);
    var ranked := RankedBy(policy, ledger.rows);
    if !Enough(policy, ledger) then Outcome(InsufficientEvidence, None, [])
    else if ranked == [] then Outcome(NoneMeets, None, [])
    else Outcome(Recommended, Some(ranked[0].row.id), Map(OutcomeId, ranked))
  }

  /** The decision over an indexed manifest. */
  method RecommendDeployment(evidences: seq<Record>, c: Contract, index: map<int, Meta>, policy: Policy)
    returns (outcome: Outcome)
    ensures outcome == DecideDeployment(evidences, c, index, policy)
  {
    var rows, rejected := Collect(Deploying(c, index), DeployedId, evidences);
    var sufficient := SameCohort(rows) && |rows| >= 2 && rejected == 0;
    var missingCost := CostMissing(policy, rows);
    var ranked := RankedBy(policy, rows);
    var verdict := if !sufficient || missingCost then InsufficientEvidence
               else if ranked != [] then Recommended else NoneMeets;
    outcome := Outcome(verdict, if verdict.Recommended? then Some(ranked[0].row.id) else None,
                       if sufficient && !missingCost then Map(OutcomeId, ranked) else []);
    assert ranked == [] ==> Map(OutcomeId, ranked) == [];
  }

  /** The whole decision; `None` when the contract or the manifest is refused. */
  method DecideOnManifest(evidences: seq<Record>, c: Contract, m: Manifest) returns (outcome: Option<Outcome>)
    ensures outcome.Some? <==> Contracts.Sound(c.workload) && ValidManifest(m)
    ensures outcome.Some? ==> exists index: map<int, Meta> ::
      Indexes(index, m.candidates) && outcome.value == DecideDeployment(evidences, c, index, m.policy)
  {
    var problems := Contracts.ValidateContract(c.workload);
    if problems.None? || problems.value != [] {
      return None;
    }
    var index := ManifestByProfile(m);
    if index.None? {
      return None;
    }
    var decided := RecommendDeployment(evidences, c, index.value, m.policy);
    outcome := Some(decided);
  }

  // ----- order does not matter -----

  ghost function DeployedZone(rows: seq<Deployed>): iset<Deployed> { iset d | d in rows }

  ghost predicate IdsFollowHashes(rows: seq<Deployed>) {
    forall i :: 0 <= i < |rows| ==> rows[i].row.id == ShortId(rows[i].row.sha)
  }

  lemma DistinctHashes(rows: seq<Deployed>, x: Deployed, y: Deployed)
    requires Distinct(Map(DeployedId, rows)) && IdsFollowHashes(rows) && x in rows && y in rows && x != y
    ensures x.row.sha != y.row.sha
  {
    var ids := Map(DeployedId, rows);
    var i :| 0 <= i < |rows| && rows[i] == x;
    var j :| 0 <= j < |rows| && rows[j] == y;
    assert ids[i] != ids[j];
  }

  lemma CostOrders(rows: seq<Deployed>)
    requires Distinct(Map(DeployedId, rows)) && IdsFollowHashes(rows)
    ensures OrdersOn(DeployedZone(rows), CostAhead)
  {
    forall x, y | x in rows && y in rows && x != y ensures CostAhead(x, y) || CostAhead(y, x) {
      DistinctHashes(rows, x, y);
    }
  }

  lemma SpeedOrders(rows: seq<Deployed>)
    requires Distinct(Map(DeployedId, rows)) && IdsFollowHashes(rows)
    ensures OrdersOn(DeployedZone(rows), SpeedAhead)
  {
    forall x, y | x in rows && y in rows && x != y ensures SpeedAhead(x, y) || SpeedAhead(y, x) {
      DistinctHashes(rows, x, y);
    }
  }

  lemma AheadOrders(policy: Policy, rows: seq<Deployed>)
    requires Distinct(Map(DeployedId, rows)) && IdsFollowHashes(rows)
    ensures OrdersOn(DeployedZone(rows), Ahead(policy)) && Distinct(rows)
  {
    CostOrders(rows);
    SpeedOrders(rows);
    forall i, j | 0 <= i < j < |rows| ensures rows[i] != rows[j] {
      assert Map(DeployedId, rows)[i] != Map(DeployedId, rows)[j];
    }
  }

  lemma MayDeployWithin(policy: Policy, rows: seq<Deployed>)
    requires Distinct(Map(DeployedId, rows)) && IdsFollowHashes(rows)
    ensures Distinct(Filter(MayDeploy, rows)) && Within(Filter(MayDeploy, rows), DeployedZone(rows))
  {
    AheadOrders(policy, rows);
    FilterDistinct(MayDeploy, rows);
    var eligible := Filter(MayDeploy, rows);
    forall i | 0 <= i < |eligible| ensures eligible[i] in DeployedZone(rows) {
      assert eligible[i] in eligible;
    }
  }

  lemma RankedByReordered(policy: Policy, rows: seq<Deployed>, others: seq<Deployed>)
    requires multiset(rows) == multiset(others) && Distinct(Map(DeployedId, rows)) && IdsFollowHashes(rows)
    ensures RankedBy(policy, rows) == RankedBy(policy, others)
  {
    AheadOrders(policy, rows);
    MayDeployWithin(policy, rows);
    FilterReordered(MayDeploy, rows, others);
    SortReordered(DeployedZone(rows), Filter(MayDeploy, rows), Filter(MayDeploy, others), Ahead(policy));
  }

  lemma GatesReordered(policy: Policy, rows: seq<Deployed>, others: seq<Deployed>)
    requires multiset(rows) == multiset(others)
    ensures SameCohort(rows) ==> SameCohort(others)
    ensures CostMissing(policy, others) ==> CostMissing(policy, rows)
  {
    SameMembers(rows, others);
    if SameCohort(rows) {
      forall i | 0 <= i < |others| ensures CohortOf(others[i].row) == CohortOf(others[0].row) {
        assert others[i] in rows && others[0] in rows;
      }
    }
    if CostMissing(policy, others) {
      var i :| 0 <= i < |others| && others[i].row.eligible && others[i].cost.None?;
      assert others[i] in rows;
    }
  }

  lemma DeployedRow(evidences: seq<Record>, c: Contract, index: map<int, Meta>, i: nat)
    requires AllJudged(Deploying(c, index), evidences) && i < |evidences|
    ensures JudgeDeployment(evidences[i], c, index) == Some(Rows(Deploying(c, index), evidences)[i])
  {
    assert Deploying(c, index)(evidences[i]).Some?;
  }

  lemma IdsFollow(evidences: seq<Record>, c: Contract, index: map<int, Meta>)
    requires AllJudged(Deploying(c, index), evidences)
    ensures IdsFollowHashes(Rows(Deploying(c, index), evidences))
  {
    var rows := Rows(Deploying(c, index), evidences);
    forall i | 0 <= i < |rows| ensures rows[i].row.id == ShortId(rows[i].row.sha) {
      DeployedRow(evidences, c, index, i);
    }
  }

  lemma EnoughReordered(s: seq<Record>, t: seq<Record>, c: Contract, index: map<int, Meta>, policy: Policy)
    requires multiset(s) == multiset(t) && Enough(policy, Accept(Deploying(c, index), DeployedId, s))
    ensures DecideDeployment(s, c, index, policy) == DecideDeployment(t, c, index, policy)
  {
    var judge := Deploying(c, index);
    NothingRejected(judge, DeployedId, s);
    CleanReordered(judge, DeployedId, s, t);
    NothingRejected(judge, DeployedId, t);
    IdsFollow(s, c, index);
    var rows, others := Rows(judge, s), Rows(judge, t);
    SameMembers(rows, others);
    GatesReordered(policy, rows, others);
    RankedByReordered(policy, rows, others);
  }

  /** The decision does not depend on the order in which evidence is listed. */
  lemma DeploymentReordered(s: seq<Record>, t: seq<Record>, c: Contract, index: map<int, Meta>, policy: Policy)
    requires multiset(s) == multiset(t)
    ensures DecideDeployment(s, c, index, policy) == DecideDeployment(t, c, index, policy)
  {
    if Enough(policy, Accept(Deploying(c, index), DeployedId, s)) {
      EnoughReordered(s, t, c, index, policy);
    } else if Enough(policy, Accept(Deploying(c, index), DeployedId, t)) {
      EnoughReordered(t, s, c, index, policy);
    }
  }

  lemma JudgeDeploymentIgnoresStored(e: Record, f: Record, c: Contract, index: map<int, Meta>)
    requires RawRecord(e) == RawRecord(f)
    ensures JudgeDeployment(e, c, index) == JudgeDeployment(f, c, index)
  {
    JudgeIgnoresStored(e, f, c);
  }

  /** Nor on results stored beside the observations. */
  lemma DeploymentIgnoresStored(s: seq<Record>, t: seq<Record>, c: Contract, index: map<int, Meta>, policy: Policy)
    requires Map(RawRecord, s) == Map(RawRecord, t)
    ensures DecideDeployment(s, c, index, policy) == DecideDeployment(t, c, index, policy)
  {
    var judge := Deploying(c, index);
    assert |Map(RawRecord, s)| == |Map(RawRecord, t)|;
    forall i | 0 <= i < |s| ensures judge(s[i]) == judge(t[i]) {
      RawAt(s, t, i);
      JudgeDeploymentIgnoresStored(s[i], t[i], c, index);
    }
    AcceptAlike(judge, DeployedId, s, t);
  }

  // ----- what an outcome means, read off evidence and manifest -----

  ghost predicate AllListed(evidences: seq<Record>, index: map<int, Meta>) {
    forall i :: 0 <= i < |evidences| ==> evidences[i].profile.id in index
  }

  ghost predicate DistinctProfiles(evidences: seq<Record>) {
    forall i, j :: 0 <= i < j < |evidences| ==> evidences[i].profile.id != evidences[j].profile.id
  }

  /** Measured alike; hardware, model and engine may differ. */
  ghost predicate OneCohort(evidences: seq<Record>) {
    forall i :: 0 <= i < |evidences| ==> Alike(evidences[i], evidences[0])
  }

  /** Meets every objective under an approved licence. */
  ghost predicate Deployable(e: Record, c: Contract, index: map<int, Meta>)
    requires HasTargets(c)
  {
    MeetsObjectives(e, c) && e.profile.id in index && index[e.profile.id].license == Approved
  }

  predicate CostKnown(m: Meta) { m.cost.Some? && m.cost.value.Num? }

  ghost predicate CostsKnown(evidences: seq<Record>, c: Contract, index: map<int, Meta>)
    requires HasTargets(c)
  {
    forall i :: 0 <= i < |evidences| && Deployable(evidences[i], c, index) ==> CostKnown(index[evidences[i].profile.id])
  }

  /**
   * At least two records, all good, listed, of distinct profiles and measured alike; under
   * cost-first, every deployable one with a cost.
   */
  ghost predicate SufficientDeployments(evidences: seq<Record>, c: Contract, index: map<int, Meta>, policy: Policy) {
    && |evidences| >= 2 && AllGood(evidences, c) && AllListed(evidences, index)
    && DistinctProfiles(evidences) && OneCohort(evidences)
    && (policy == CostFirst ==> HasTargets(c) && CostsKnown(evidences, c, index))
  }

  lemma DeployedRecord(evidences: seq<Record>, c: Contract, index: map<int, Meta>, i: nat)
    requires AllJudged(Deploying(c, index), evidences) && i < |evidences|
    ensures var e, d := evidences[i], Rows(Deploying(c, index), evidences)[i];
            && HasTargets(c) && e.profile.id in index
            && d.row.id == e.profile.id && d.row.sha == e.profile.digest && d.cost == CostOf(index[e.profile.id])
            && CohortOf(d.row) == Cohort(e.experiment, e.scenario, e.comparison, e.protocol)
            && (d.row.eligible <==> Deployable(e, c, index))
            && (d.row.eligible ==> HasFigures(e, c, FiguresOf(d.row)))
  {
    DeployedRow(evidences, c, index, i);
    EligibleMeans(evidences[i], c);
    RowReads(evidences[i], c);
  }

  lemma AllDeployed(evidences: seq<Record>, c: Contract, index: map<int, Meta>)
    ensures AllJudged(Deploying(c, index), evidences) <==> AllGood(evidences, c) && AllListed(evidences, index)
  {
    var judge := Deploying(c, index);
    forall i | 0 <= i < |evidences|
      ensures judge(evidences[i]).Some? <==> Judge(evidences[i], c).Some? && evidences[i].profile.id in index
    {
    }
    if AllJudged(judge, evidences) {
      forall i | 0 <= i < |evidences| ensures Judge(evidences[i], c).Some? && evidences[i].profile.id in index {
        assert judge(evidences[i]).Some?;
      }
    }
  }

  lemma CohortsMean(evidences: seq<Record>, c: Contract, index: map<int, Meta>)
    requires AllJudged(Deploying(c, index), evidences) && evidences != []
    ensures SameCohort(Rows(Deploying(c, index), evidences)) <==> OneCohort(evidences)
  {
    var rows := Rows(Deploying(c, index), evidences);
    forall i: nat | i < |rows|
      ensures CohortOf(rows[i].row) == CohortOf(rows[0].row) <==> Alike(evidences[i], evidences[0])
    {
      DeployedRecord(evidences, c, index, i);
      DeployedRecord(evidences, c, index, 0);
    }
    if SameCohort(rows) {
      forall i | 0 <= i < |evidences| ensures Alike(evidences[i], evidences[0]) {
        assert CohortOf(rows[i].row) == CohortOf(rows[0].row);
      }
    }
  }

  lemma ProfilesMean(evidences: seq<Record>, c: Contract, index: map<int, Meta>)
    requires AllJudged(Deploying(c, index), evidences)
    ensures Distinct(Map(DeployedId, Rows(Deploying(c, index), evidences))) <==> DistinctProfiles(evidences)
  {
    var ids := Map(DeployedId, Rows(Deploying(c, index), evidences));
    forall i: nat | i < |evidences| ensures ids[i] == evidences[i].profile.id {
      DeployedRecord(evidences, c, index, i);
    }
  }

  lemma CostsMean(evidences: seq<Record>, c: Contract, index: map<int, Meta>)
    requires AllJudged(Deploying(c, index), evidences) && HasTargets(c)
    ensures CostMissing(CostFirst, Rows(Deploying(c, index), evidences)) <==> !CostsKnown(evidences, c, index)
  {
    var rows := Rows(Deploying(c, index), evidences);
    forall i: nat | i < |rows|
      ensures rows[i].row.eligible <==> Deployable(evidences[i], c, index)
      ensures rows[i].row.eligible ==> (rows[i].cost.None? <==> !CostKnown(index[evidences[i].profile.id]))
    {
      DeployedRecord(evidences, c, index, i);
    }
  }

  lemma EnoughLedger(evidences: seq<Record>, c: Contract, index: map<int, Meta>, policy: Policy)
    ensures var judge := Deploying(c, index);
            var ledger := Accept(judge, DeployedId, evidences);
            && (Clean(judge, DeployedId, evidences) ==> ledger.rows == Rows(judge, evidences))
            && (Enough(policy, ledger) <==>
                  Clean(judge, DeployedId, evidences)
                  && SameCohort(Rows(judge, evidences)) && |evidences| >= 2
                  && !CostMissing(policy, Rows(judge, evidences)))
  {
    NothingRejected(Deploying(c, index), DeployedId, evidences);
  }

  /** Enough evidence, in terms of the records. */
  lemma EnoughMeans(evidences: seq<Record>, c: Contract, index: map<int, Meta>, policy: Policy)
    ensures Enough(policy, Accept(Deploying(c, index), DeployedId, evidences))
            <==> SufficientDeployments(evidences, c, index, policy)
    ensures SufficientDeployments(evidences, c, index, policy) ==> Clean(Deploying(c, index), DeployedId, evidences)
  {
    EnoughLedger(evidences, c, index, policy);
    AllDeployed(evidences, c, index);
    if AllJudged(Deploying(c, index), evidences) && |evidences| >= 2 {
      DeployedRecord(evidences, c, index, 0);
      CohortsMean(evidences, c, index);
      ProfilesMean(evidences, c, index);
      CostsMean(evidences, c, index);
    }
  }

  /** A known cost is less than a greater one and than none. */
  predicate CostsLess(p: Option<real>, q: Option<real>) {
    match (p, q)
    case (Some(x), Some(y)) => x < y
    case (Some(_), None) => true
    case (None, _) => false
  }

  /** Cost-first: cost, first answer, end. Performance-first: first answer, end, rate, cost. The hash decides last. */
  predicate Precedes(policy: Policy, x: Figures, p: Option<real>, i: nat, y: Figures, q: Option<real>, j: nat) {
    if policy == CostFirst then
      || CostsLess(p, q)
      || (p == q && x.ttfa < y.ttfa)
      || (p == q && x.ttfa == y.ttfa && x.endToEnd < y.endToEnd)
      || (p == q && x.ttfa == y.ttfa && x.endToEnd == y.endToEnd && i < j)
    else
      || Faster(x, y)
      || (x == y && CostsLess(p, q))
      || (x == y && p == q && i < j)
  }

  /** `order` lists the deployable records, all of them, those that precede first. */
  ghost predicate RanksDeployments(evidences: seq<Record>, c: Contract, index: map<int, Meta>, policy: Policy,
                                   figures: seq<Figures>, order: seq<nat>)
    requires HasTargets(c) && |figures| == |evidences| && AllListed(evidences, index)
  {
    && (forall k :: 0 <= k < |order| ==> order[k] < |evidences| && Deployable(evidences[order[k]], c, index))
    && (forall i: nat :: i < |evidences| && Deployable(evidences[i], c, index) ==> i in order)
    && (forall a, b :: 0 <= a < b < |order| ==>
          var e, f := evidences[order[a]].profile, evidences[order[b]].profile;
          Precedes(policy, figures[order[a]], CostOf(index[e.id]), e.digest,
                   figures[order[b]], CostOf(index[f.id]), f.digest))
  }

  /** The figures of every deployable record. */
  ghost predicate MeasuredDeployments(evidences: seq<Record>, c: Contract, index: map<int, Meta>,
                                      figures: seq<Figures>)
    requires HasTargets(c)
  {
    |figures| == |evidences| && forall i :: 0 <= i < |evidences| && Deployable(evidences[i], c, index) ==>
      HasFigures(evidences[i], c, figures[i])
  }

  function RowFigures(d: Deployed): Figures { FiguresOf(d.row) }

  lemma AheadPrecedes(policy: Policy, x: Deployed, y: Deployed)
    requires Ahead(policy)(x, y)
    ensures Precedes(policy, RowFigures(x), x.cost, x.row.sha, RowFigures(y), y.cost, y.row.sha)
  {
  }

  lemma DeploymentsTranslated(evidences: seq<Record>, c: Contract, index: map<int, Meta>, policy: Policy,
                              order: seq<nat>)
    requires AllJudged(Deploying(c, index), evidences) && HasTargets(c) && AllListed(evidences, index)
    requires RanksBy(Rows(Deploying(c, index), evidences), MayDeploy, Ahead(policy), order)
    ensures var figures := Map(RowFigures, Rows(Deploying(c, index), evidences));
            && MeasuredDeployments(evidences, c, index, figures)
            && RanksDeployments(evidences, c, index, policy, figures, order)
  {
    var rows := Rows(Deploying(c, index), evidences);
    forall i: nat | i < |evidences|
      ensures MayDeploy(rows[i]) <==> Deployable(evidences[i], c, index)
      ensures MayDeploy(rows[i]) ==> HasFigures(evidences[i], c, RowFigures(rows[i]))
      ensures rows[i].row.sha == evidences[i].profile.digest && rows[i].cost == CostOf(index[evidences[i].profile.id])
    {
      DeployedRecord(evidences, c, index, i);
    }
    forall a, b | 0 <= a < b < |order|
      ensures Precedes(policy, RowFigures(rows[order[a]]), rows[order[a]].cost, rows[order[a]].row.sha,
                       RowFigures(rows[order[b]]), rows[order[b]].cost, rows[order[b]].row.sha)
    {
      AheadPrecedes(policy, rows[order[a]], rows[order[b]]);
    }
  }

  ghost predicate AnyDeployable(evidences: seq<Record>, c: Contract, index: map<int, Meta>)
    requires HasTargets(c)
  {
    exists i :: 0 <= i < |evidences| && Deployable(evidences[i], c, index)
  }

  lemma DeployableIsRanked(evidences: seq<Record>, c: Contract, index: map<int, Meta>, policy: Policy,
                           figures: seq<Figures>, order: seq<nat>)
    requires HasTargets(c) && |figures| == |evidences| && AllListed(evidences, index)
    requires RanksDeployments(evidences, c, index, policy, figures, order)
    ensures AnyDeployable(evidences, c, index) <==> order != []
  {
    if order != [] {
      assert Deployable(evidences[order[0]], c, index);
    }
    if AnyDeployable(evidences, c, index) {
      var i: nat :| i < |evidences| && Deployable(evidences[i], c, index);
      assert i in order;
    }
  }

  /** The outcome is made of the records at these positions. */
  ghost predicate OutcomeOf(o: Outcome, evidences: seq<Record>, order: seq<nat>) {
    && |o.ranking| == |order|
    && (forall k :: 0 <= k < |order| ==> order[k] < |evidences| && o.ranking[k] == evidences[order[k]].profile.id)
    && (if order == [] then o.verdict == NoneMeets && o.selected == None
        else o.verdict == Recommended && o.selected == Some(o.ranking[0]))
  }

  function RankedOutcome(ranked: seq<Deployed>): Outcome {
    if ranked == [] then Outcome(NoneMeets, None, [])
    else Outcome(Recommended, Some(ranked[0].row.id), Map(OutcomeId, ranked))
  }

  lemma DecideDeploymentRanks(evidences: seq<Record>, c: Contract, index: map<int, Meta>, policy: Policy)
    requires SufficientDeployments(evidences, c, index, policy) && AllJudged(Deploying(c, index), evidences)
    ensures DecideDeployment(evidences, c, index, policy)
            == RankedOutcome(RankedBy(policy, Rows(Deploying(c, index), evidences)))
  {
    EnoughMeans(evidences, c, index, policy);
    EnoughLedger(evidences, c, index, policy);
  }

  ghost predicate SameProfiles(rows: seq<Deployed>, evidences: seq<Record>) {
    |rows| == |evidences| && forall i :: 0 <= i < |rows| ==> rows[i].row.id == evidences[i].profile.id
  }

  lemma RowsProfiled(evidences: seq<Record>, c: Contract, index: map<int, Meta>)
    requires AllJudged(Deploying(c, index), evidences)
    ensures SameProfiles(Rows(Deploying(c, index), evidences), evidences)
  {
    var rows := Rows(Deploying(c, index), evidences);
    forall i: nat | i < |rows| ensures rows[i].row.id == evidences[i].profile.id {
      DeployedRecord(evidences, c, index, i);
    }
  }

  lemma RankedOutcomeReads(ranked: seq<Deployed>, rows: seq<Deployed>, evidences: seq<Record>, order: seq<nat>)
    requires |order| == |ranked| && SameProfiles(rows, evidences)
    requires forall k :: 0 <= k < |order| ==> order[k] < |rows| && rows[order[k]] == ranked[k]
    ensures OutcomeOf(RankedOutcome(ranked), evidences, order)
  {
  }

  lemma DeploymentsRanked(evidences: seq<Record>, c: Contract, index: map<int, Meta>, policy: Policy)
    returns (order: seq<nat>)
    requires AllJudged(Deploying(c, index), evidences)
    requires Distinct(Map(DeployedId, Rows(Deploying(c, index), evidences)))
    ensures var rows := Rows(Deploying(c, index), evidences);
            && RanksBy(rows, MayDeploy, Ahead(policy), order) && |order| == |RankedBy(policy, rows)|
            && forall k :: 0 <= k < |order| ==> order[k] < |rows| && rows[order[k]] == RankedBy(policy, rows)[k]
  {
    var rows := Rows(Deploying(c, index), evidences);
    IdsFollow(evidences, c, index);
    AheadOrders(policy, rows);
    order := RankedPlaces(DeployedZone(rows), rows, MayDeploy, Ahead(policy));
  }

  /**
   * The verdict, the ranking and the selection: too little evidence exactly when the records do
   * not suffice; otherwise the deployable records, by the policy's order of their figures and
   * costs, the first of them selected, or none if there is none.
   */
  lemma OutcomeMeans(evidences: seq<Record>, c: Contract, index: map<int, Meta>, policy: Policy)
    returns (figures: seq<Figures>, order: seq<nat>)
    ensures var o := DecideDeployment(evidences, c, index, policy);
            && (o.verdict == InsufficientEvidence <==> !SufficientDeployments(evidences, c, index, policy))
            && (o.verdict != Recommended ==> o.selected == None && o.ranking == [])
    ensures SufficientDeployments(evidences, c, index, policy) ==> HasTargets(c)
    ensures SufficientDeployments(evidences, c, index, policy) ==>
              && MeasuredDeployments(evidences, c, index, figures)
              && RanksDeployments(evidences, c, index, policy, figures, order)
              && OutcomeOf(DecideDeployment(evidences, c, index, policy), evidences, order)
              && (DecideDeployment(evidences, c, index, policy).verdict == Recommended <==>
                  AnyDeployable(evidences, c, index))
  {
    EnoughMeans(evidences, c, index, policy);
    figures, order := [], [];
    if SufficientDeployments(evidences, c, index, policy) {
      DeployedRecord(evidences, c, index, 0);
      order := DeploymentsRanked(evidences, c, index, policy);
      DeploymentsTranslated(evidences, c, index, policy, order);
      figures := Map(RowFigures, Rows(Deploying(c, index), evidences));
      DecideDeploymentRanks(evidences, c, index, policy);
      RowsProfiled(evidences, c, index);
      RankedOutcomeReads(RankedBy(policy, Rows(Deploying(c, index), evidences)), Rows(Deploying(c, index), evidences),
                         evidences, order);
      DeployableIsRanked(evidences, c, index, policy, figures, order);
    }
  }
}
