// Picking a diverse shortlist out of the screened capacity candidates.
module Shortlist {
  import opened Arithmetic
  import opened Ranking
  import opened Wrappers

  datatype Status = StrongFit | ConditionalFit | BorderlineFit | UnlikelyFit | NotFeasible

  /** Ids stand for strings: only their order and equality matter. */
  datatype Candidate = Candidate(id: int, model: int, hardware: int, status: Status, score: real)

  function Tier(s: Status): int {
    match s
    case StrongFit => 0
    case ConditionalFit => 1
    case BorderlineFit => 2
    case UnlikelyFit => 3
    case NotFeasible => 4
  }

  /** Better tier first, then higher score, then id. */
  predicate Before(a: Candidate, b: Candidate) {
    || Tier(a.status) < Tier(b.status)
    || (Tier(a.status) == Tier(b.status) && (a.score > b.score || (a.score == b.score && a.id < b.id)))
  }

  /** In a tier at least as good, within it scored at least as high, and among equals of the smaller id. */
  predicate Leads(a: Candidate, c: Candidate) {
    && NoWorse(a.status, c.status)
    && (a.status == c.status ==> a.score >= c.score)
    && (a.status == c.status && a.score == c.score ==> a.id <= c.id)
  }

  /** The sorting order is that one. */
  lemma BeforeIsLeads(a: Candidate, c: Candidate)
    requires a.id != c.id
    ensures Before(a, c) <==> Leads(a, c)
  {
  }

  /** Strong before conditional before borderline before unlikely fits. */
  predicate NoWorse(s: Status, t: Status) {
    match s
    case StrongFit => true
    case ConditionalFit => !t.StrongFit?
    case BorderlineFit => !t.StrongFit? && !t.ConditionalFit?
    case UnlikelyFit => t.UnlikelyFit? || t.NotFeasible?
    case NotFeasible => t.NotFeasible?
  }

  predicate Feasible(c: Candidate) { c.status != NotFeasible }

  ghost predicate DistinctIds(cs: seq<Candidate>) { forall i, j :: 0 <= i < j < |cs| ==> cs[i].id != cs[j].id }

  /** Values of one list with distinct ids are ordered strictly. */
  ghost function Zone(cs: seq<Candidate>): iset<Candidate> { iset c | c in cs }

  lemma BeforeOrders(cs: seq<Candidate>)
    requires DistinctIds(cs)
    ensures OrdersOn(Zone(cs), Before) && Distinct(cs)
  {
    forall x, y | x in cs && y in cs && x != y ensures Before(x, y) || Before(y, x) {
      var i :| 0 <= i < |cs| && cs[i] == x;
      var j :| 0 <= j < |cs| && cs[j] == y;
      assert x.id != y.id;
    }
  }

  /** The feasible candidates, best first. */
  function Eligible(cs: seq<Candidate>): seq<Candidate> { SortBy(Filter(Feasible, cs), Before) }

  lemma EligibleRanked(cs: seq<Candidate>)
    requires DistinctIds(cs)
    ensures var e := Eligible(cs);
            && Ascending(e, Before) && Distinct(e)
            && (forall c :: c in e <==> c in cs && Feasible(c))
            && |e| == |Filter(Feasible, cs)|
  {
    BeforeOrders(cs);
    var f := Filter(Feasible, cs);
    FilterDistinct(Feasible, cs);
    forall i | 0 <= i < |f| ensures f[i] in Zone(cs) {
      assert f[i] in f;
    }
    SortAscends(Zone(cs), f, Before);
    SortKeeps(f, Before);
    SameMembers(f, Eligible(cs));
    DistinctReordered(f, Eligible(cs));
  }

  function Models(cs: seq<Candidate>): seq<int> {
    if cs == [] then []
    else
      var before := Models(cs[..|cs| - 1]);
      var m := cs[|cs| - 1].model;
      if m in before then before else before + [m]
  }

  lemma {:induction false} ModelsOnce(cs: seq<Candidate>)
    ensures Distinct(Models(cs))
    ensures forall m :: m in Models(cs) <==> exists c :: c in cs && c.model == m
    ensures cs != [] ==> Models(cs) != [] && Models(cs)[0] == cs[0].model
  {
    if cs != [] {
      var front, last := cs[..|cs| - 1], cs[|cs| - 1];
      ModelsOnce(front);
      assert cs == front + [last];
      forall m ensures m in Models(cs) <==> exists c :: c in cs && c.model == m {
        if c :| c in front && c.model == m {
          assert c in cs;
        }
        if c :| c in cs && c.model == m {
          assert c in front || c == last;
        }
      }
    }
  }

  /** The first candidate of model `m` is the one at `p`. */
  ghost predicate FirstAt(cs: seq<Candidate>, m: int, p: nat) {
    p < |cs| && cs[p].model == m && forall q :: 0 <= q < p ==> cs[q].model != m
  }

  /** A model listed earlier has its first candidate earlier. */
  ghost predicate FirstPlaces(cs: seq<Candidate>, models: seq<int>, at: seq<nat>) {
    && |at| == |models| && (forall j :: 0 <= j < |at| ==> FirstAt(cs, models[j], at[j]))
    && (forall i, j :: 0 <= i < j < |at| ==> at[i] < at[j])
  }

  lemma FirstAtExtends(cs: seq<Candidate>, m: int, p: nat)
    requires cs != [] && FirstAt(cs[..|cs| - 1], m, p)
    ensures FirstAt(cs, m, p)
  {
    forall q | 0 <= q < p ensures cs[q].model != m {
      assert cs[..|cs| - 1][q].model != m;
    }
  }

  lemma OnePlaceMore(cs: seq<Candidate>, models: seq<int>, at: seq<nat>, m: int, p: nat)
    requires FirstPlaces(cs, models, at) && FirstAt(cs, m, p) && forall j :: 0 <= j < |at| ==> at[j] < p
    ensures FirstPlaces(cs, models + [m], at + [p])
  {
  }

  lemma PlacesExtend(cs: seq<Candidate>, models: seq<int>, at: seq<nat>)
    requires cs != [] && FirstPlaces(cs[..|cs| - 1], models, at)
    ensures FirstPlaces(cs, models, at) && forall j :: 0 <= j < |at| ==> at[j] < |cs| - 1
  {
    forall j | 0 <= j < |at| ensures FirstAt(cs, models[j], at[j]) && at[j] < |cs| - 1 {
      FirstAtExtends(cs, models[j], at[j]);
    }
  }

  lemma LastIsFirst(cs: seq<Candidate>)
    requires cs != [] && cs[|cs| - 1].model !in Models(cs[..|cs| - 1])
    ensures FirstAt(cs, cs[|cs| - 1].model, |cs| - 1)
  {
    var front := cs[..|cs| - 1];
    NotYet(front, cs[|cs| - 1].model);
    assert forall q :: 0 <= q < |front| ==> cs[q] == front[q];
  }

  /** The models are listed in the order of their best candidates. */
  lemma {:induction false} ModelsByBest(cs: seq<Candidate>) returns (at: seq<nat>)
    ensures FirstPlaces(cs, Models(cs), at)
  {
    at := [];
    if cs != [] {
      var front, last := cs[..|cs| - 1], cs[|cs| - 1];
      at := ModelsByBest(front);
      PlacesExtend(cs, Models(front), at);
      if last.model !in Models(front) {
        LastIsFirst(cs);
        OnePlaceMore(cs, Models(front), at, last.model, |cs| - 1);
        at := at + [|cs| - 1];
      }
    }
  }

  lemma NotYet(front: seq<Candidate>, m: int)
    requires m !in Models(front)
    ensures forall q :: 0 <= q < |front| ==> front[q].model != m
  {
    ModelsOnce(front);
    forall q | 0 <= q < |front| ensures front[q].model != m {
      assert front[q] in front;
    }
  }

  function Options(eligible: seq<Candidate>, m: int): seq<Candidate> {
    Filter((c: Candidate) => c.model == m, eligible)
  }

  /** `best` is the first of its model. */
  ghost predicate BestOfModel(eligible: seq<Candidate>, m: int, best: Candidate) {
    && best in eligible && best.model == m
    && forall c :: c in eligible && c.model == m && c != best ==> Before(best, c)
  }

  lemma OptionsLast(eligible: seq<Candidate>, m: int)
    requires eligible != []
    ensures var front, last := eligible[..|eligible| - 1], eligible[|eligible| - 1];
            && Options(eligible, m) == Options(front, m) + (if last.model == m then [last] else [])
            && forall c :: c in eligible <==> c in front || c == last
  {
    assert eligible == eligible[..|eligible| - 1] + [eligible[|eligible| - 1]];
  }

  /** The best of the front stays the best when one more candidate follows. */
  lemma BestExtends(eligible: seq<Candidate>, m: int, best: Candidate)
    requires Ascending(eligible, Before) && eligible != [] && BestOfModel(eligible[..|eligible| - 1], m, best)
    ensures BestOfModel(eligible, m, best)
  {
    var front := eligible[..|eligible| - 1];
    OptionsLast(eligible, m);
    var i :| 0 <= i < |front| && front[i] == best;
    assert Before(eligible[i], eligible[|eligible| - 1]);
  }

  lemma {:induction false} FirstOptionIsBest(eligible: seq<Candidate>, m: int)
    requires Ascending(eligible, Before) && Options(eligible, m) != []
    ensures BestOfModel(eligible, m, Options(eligible, m)[0])
  {
    var front := eligible[..|eligible| - 1];
    OptionsLast(eligible, m);
    if Options(front, m) != [] {
      FirstOptionIsBest(front, m);
      BestExtends(eligible, m, Options(front, m)[0]);
    } else {
      forall c | c in front ensures c.model != m {
        assert c !in Options(front, m);
      }
    }
  }

  /** In the best one's tier and within 15 points of it. */
  predicate Comparable(best: Candidate, c: Candidate) { c.status == best.status && c.score >= best.score - 15.0 }

  /** A comparable option of model `m` on hardware not yet shown. */
  predicate FreshOption(eligible: seq<Candidate>, m: int, best: Candidate, seen: set<int>, c: Candidate) {
    c in eligible && c.model == m && Comparable(best, c) && c.hardware !in seen
  }

  /**
   * What a pick for model `m` is: the first option in the best one's tier, within 15 points and
   * on fresh hardware, or the best one if there is none.
   */
  ghost predicate FairPick(eligible: seq<Candidate>, m: int, pick: Candidate, seen: set<int>) {
    exists best :: FairPickOver(eligible, m, best, pick, seen)
  }

  ghost predicate FairPickOver(eligible: seq<Candidate>, m: int, best: Candidate, pick: Candidate, seen: set<int>) {
    && BestOfModel(eligible, m, best)
    && (if FreshOption(eligible, m, best, seen, pick)
        then forall c :: FreshOption(eligible, m, best, seen, c) && c != pick ==> Before(pick, c)
        else pick == best && forall c :: !FreshOption(eligible, m, best, seen, c))
  }

  lemma {:induction false} OptionsAscend(eligible: seq<Candidate>, m: int)
    requires Ascending(eligible, Before)
    ensures Ascending(Options(eligible, m), Before)
    ensures forall c :: c in Options(eligible, m) <==> c in eligible && c.model == m
  {
    if eligible != [] {
      var front, last := eligible[..|eligible| - 1], eligible[|eligible| - 1];
      OptionsAscend(front, m);
      OptionsLast(eligible, m);
      forall c | c in front ensures Before(c, last) {
        var i :| 0 <= i < |front| && front[i] == c;
        assert Before(eligible[i], eligible[|eligible| - 1]);
      }
      var os := Options(front, m);
      forall i | 0 <= i < |os| ensures Before(os[i], last) {
        assert os[i] in os;
      }
    }
  }

  /** The first acceptable option on hardware not yet shown, or the best one. */
  method PickOption(eligible: seq<Candidate>, m: int, seen: set<int>) returns (pick: Candidate)
    requires Ascending(eligible, Before) && Options(eligible, m) != []
    ensures FairPick(eligible, m, pick, seen)
  {
    var options := Options(eligible, m);
    var best := options[0];
    FirstOptionIsBest(eligible, m);
    OptionsAscend(eligible, m);
    for i := 0 to |options|
      invariant forall j :: 0 <= j < i ==> !FreshOption(eligible, m, best, seen, options[j])
    {
      var value := options[i];
      if value.hardware !in seen && Comparable(best, value) {
        assert value in options;
        forall c | FreshOption(eligible, m, best, seen, c) && c != value ensures Before(value, c) {
          assert c in options;
          var k :| 0 <= k < |options| && options[k] == c;
          assert Before(options[i], options[k]);
        }
        assert FairPickOver(eligible, m, best, value, seen);
        return value;
      }
    }
    pick := best;
    assert forall c :: c in options ==> !FreshOption(eligible, m, best, seen, c);
    assert FairPickOver(eligible, m, best, pick, seen);
  }

  function HardwareOf(s: seq<Candidate>): set<int> { set c | c in s :: c.hardware }

  /** Distinct eligible entries, the first of them the fair picks of the first models. */
  ghost predicate Picked(eligible: seq<Candidate>, models: seq<int>, selected: seq<Candidate>, fair: nat) {
    && Distinct(selected) && (forall c :: c in selected ==> c in eligible)
    && fair <= |selected| && fair <= |models|
    && (forall k :: 0 <= k < fair ==> FairPick(eligible, models[k], selected[k], HardwareOf(selected[..k])))
  }

  lemma PickOfModel(eligible: seq<Candidate>, m: int, pick: Candidate, seen: set<int>)
    requires FairPick(eligible, m, pick, seen)
    ensures pick in eligible && pick.model == m
  {
    var best :| FairPickOver(eligible, m, best, pick, seen);
  }

  lemma PickIsNew(eligible: seq<Candidate>, models: seq<int>, selected: seq<Candidate>, pick: Candidate)
    requires Picked(eligible, models, selected, |selected|) && |selected| < |models| && Distinct(models)
    requires FairPick(eligible, models[|selected|], pick, HardwareOf(selected))
    ensures Picked(eligible, models, selected + [pick], |selected| + 1)
  {
    PickOfModel(eligible, models[|selected|], pick, HardwareOf(selected));
    var more := selected + [pick];
    assert more[..|selected|] == selected;
    forall k | 0 <= k < |selected| ensures selected[k] != pick && more[..k] == selected[..k] {
      assert FairPick(eligible, models[k], selected[k], HardwareOf(selected[..k]));
      PickOfModel(eligible, models[k], selected[k], HardwareOf(selected[..k]));
      PickOfModel(eligible, models[|selected|], pick, HardwareOf(selected));
      assert models[k] != models[|selected|];
    }
  }

  lemma AppendNew(eligible: seq<Candidate>, models: seq<int>, selected: seq<Candidate>, fair: nat, c: Candidate)
    requires Picked(eligible, models, selected, fair) && c in eligible && c !in selected
    ensures Picked(eligible, models, selected + [c], fair)
  {
    assert forall k :: 0 <= k < fair ==> (selected + [c])[..k] == selected[..k];
  }

  lemma HasOption(eligible: seq<Candidate>, models: seq<int>, i: nat)
    requires models == Models(eligible) && i < |models|
    ensures Options(eligible, models[i]) != []
  {
    ModelsOnce(eligible);
    assert models[i] in models;
    var c :| c in eligible && c.model == models[i];
    assert c in Options(eligible, models[i]);
  }

  lemma HardwareGrows(selected: seq<Candidate>, pick: Candidate)
    ensures HardwareOf(selected + [pick]) == HardwareOf(selected) + {pick.hardware}
  {
    assert forall c :: c in selected + [pick] <==> c in selected || c == pick;
    assert pick in selected + [pick];
  }

  /** One fair pick per model, in order, while there is room. */
  method PickModels(eligible: seq<Candidate>, models: seq<int>, size: nat) returns (selected: seq<Candidate>)
    requires size >= 1 && Ascending(eligible, Before) && Distinct(models)
    requires forall i: nat :: i < |models| ==> Options(eligible, models[i]) != []
    ensures |selected| == Min(size, |models|) && Picked(eligible, models, selected, |selected|)
  {
    selected := [];
    var seen: set<int> := {};
    for i := 0 to |models|
      invariant |selected| == i && i < size && seen == HardwareOf(selected) && Picked(eligible, models, selected, i)
    {
      var pick := PickOption(eligible, models[i], seen);
      PickIsNew(eligible, models, selected, pick);
      HardwareGrows(selected, pick);
      selected := selected + [pick];
      seen := seen + {pick.hardware};
      if |selected| == size {
        return;
      }
    }
  }

  /** The best candidate on hardware not in `seen`. */
  ghost predicate FreshPick(eligible: seq<Candidate>, c: Candidate, seen: set<int>) {
    c in eligible && c.hardware !in seen
    && forall d :: d in eligible && d.hardware !in seen && d != c ==> Before(c, d)
  }

  /** The best candidate not in `taken`. */
  ghost predicate NextBest(eligible: seq<Candidate>, c: Candidate, taken: seq<Candidate>) {
    c in eligible && c !in taken && forall d :: d in eligible && d !in taken && d != c ==> Before(c, d)
  }

  /** From `from` up to `to` each entry is the best on hardware not shown before it. */
  ghost predicate FreshFrom(eligible: seq<Candidate>, selected: seq<Candidate>, from: nat, to: nat) {
    to <= |selected| && forall k :: from <= k < to ==> FreshPick(eligible, selected[k], HardwareOf(selected[..k]))
  }

  /** From `from` on each entry is the best not selected before it. */
  ghost predicate BestFrom(eligible: seq<Candidate>, selected: seq<Candidate>, from: nat) {
    forall k :: from <= k < |selected| ==> NextBest(eligible, selected[k], selected[..k])
  }

  predicate ShownUpTo(eligible: seq<Candidate>, i: nat, seen: set<int>) {
    forall j :: 0 <= j < i && j < |eligible| ==> eligible[j].hardware in seen
  }

  lemma SelectedIsShown(selected: seq<Candidate>, c: Candidate)
    ensures c in selected ==> c.hardware in HardwareOf(selected)
  {
  }

  lemma AllUpToEnd(eligible: seq<Candidate>, selected: seq<Candidate>)
    requires ShownUpTo(eligible, |eligible|, HardwareOf(selected))
    ensures AllShown(eligible, selected)
  {
  }

  predicate AllShown(eligible: seq<Candidate>, selected: seq<Candidate>) {
    forall c :: c in eligible ==> c.hardware in HardwareOf(selected)
  }

  lemma FreshAppend(eligible: seq<Candidate>, selected: seq<Candidate>, from: nat, i: nat)
    requires Ascending(eligible, Before) && i < |eligible| && FreshFrom(eligible, selected, from, |selected|)
    requires ShownUpTo(eligible, i, HardwareOf(selected))
    requires eligible[i].hardware !in HardwareOf(selected)
    ensures FreshFrom(eligible, selected + [eligible[i]], from, |selected| + 1)
  {
    var c, more := eligible[i], selected + [eligible[i]];
    assert more[..|selected|] == selected;
    forall k | from <= k < |selected| ensures more[..k] == selected[..k] && more[k] == selected[k] {
    }
    forall d | d in eligible && d.hardware !in HardwareOf(selected) && d != c ensures Before(c, d) {
      var j :| 0 <= j < |eligible| && eligible[j] == d;
      assert Before(eligible[i], eligible[j]);
    }
  }

  /** Then candidates on hardware not shown yet. */
  method AddHardware(eligible: seq<Candidate>, ghost models: seq<int>, picked: seq<Candidate>, size: nat)
    returns (selected: seq<Candidate>)
    requires |picked| < size && Picked(eligible, models, picked, |picked|) && Ascending(eligible, Before)
    ensures picked <= selected && |selected| <= size && Picked(eligible, models, selected, |picked|)
    ensures FreshFrom(eligible, selected, |picked|, |selected|)
    ensures |selected| == size || AllShown(eligible, selected)
  {
    selected := picked;
    var seen := HardwareOf(selected);
    for i := 0 to |eligible|
      invariant picked <= selected && |selected| < size && seen == HardwareOf(selected)
      invariant Picked(eligible, models, selected, |picked|) && FreshFrom(eligible, selected, |picked|, |selected|)
      invariant ShownUpTo(eligible, i, seen)
    {
      var c := eligible[i];
      SelectedIsShown(selected, c);
      if c.hardware !in seen && c !in selected {
        FreshAppend(eligible, selected, |picked|, i);
        AppendNew(eligible, models, selected, |picked|, c);
        HardwareGrows(selected, c);
        selected := selected + [c];
        seen := seen + {c.hardware};
      }
      if |selected| == size {
        break;
      }
    }
    if |selected| < size {
      AllUpToEnd(eligible, selected);
    }
  }

  lemma BestAppend(eligible: seq<Candidate>, selected: seq<Candidate>, from: nat, i: nat)
    requires Ascending(eligible, Before) && i < |eligible| && BestFrom(eligible, selected, from)
    requires eligible[i] !in selected && forall j :: 0 <= j < i ==> eligible[j] in selected
    ensures BestFrom(eligible, selected + [eligible[i]], from)
  {
    var c, more := eligible[i], selected + [eligible[i]];
    assert more[..|selected|] == selected;
    forall k | from <= k < |selected| ensures more[..k] == selected[..k] && more[k] == selected[k] {
    }
    forall d | d in eligible && d !in selected && d != c ensures Before(c, d) {
      var j :| 0 <= j < |eligible| && eligible[j] == d;
      assert Before(eligible[i], eligible[j]);
    }
  }

  lemma FreshExtends(eligible: seq<Candidate>, shorter: seq<Candidate>, longer: seq<Candidate>, from: nat)
    requires FreshFrom(eligible, shorter, from, |shorter|) && shorter <= longer
    ensures FreshFrom(eligible, longer, from, |shorter|)
  {
    forall k | from <= k < |shorter| ensures FreshPick(eligible, longer[k], HardwareOf(longer[..k])) {
      assert longer[..k] == shorter[..k];
    }
  }

  /**
   * Then whatever is left. The loop looks at the length only after a candidate, so
   * entering it full is safe just because the first candidate is already selected.
   */
  method FillUp(eligible: seq<Candidate>, ghost models: seq<int>, picked: seq<Candidate>, ghost fair: nat, size: nat)
    returns (selected: seq<Candidate>)
    requires |picked| <= size && Picked(eligible, models, picked, fair) && Ascending(eligible, Before)
    requires eligible != [] ==> eligible[0] in picked
    ensures picked <= selected && |selected| <= size && Picked(eligible, models, selected, fair)
    ensures BestFrom(eligible, selected, |picked|)
    ensures |selected| == size || forall c :: c in eligible ==> c in selected
  {
    selected := picked;
    for i := 0 to |eligible|
      invariant picked <= selected && |selected| <= size && Picked(eligible, models, selected, fair)
      invariant BestFrom(eligible, selected, |picked|)
      invariant i > 0 ==> |selected| < size
      invariant forall j :: 0 <= j < i ==> eligible[j] in selected
    {
      if eligible[i] !in selected {
        BestAppend(eligible, selected, |picked|, i);
        AppendNew(eligible, models, selected, fair, eligible[i]);
        selected := selected + [eligible[i]];
      }
      if |selected| == size {
        break;
      }
    }
  }

  /** The first of the ranked candidates comes before all others, and leads them in tier and score. */
  lemma FirstLeads(cs: seq<Candidate>, eligible: seq<Candidate>)
    requires Ascending(eligible, Before) && eligible != [] && forall c :: c in eligible <==> c in cs && Feasible(c)
    ensures forall c :: c in cs && Feasible(c) ==>
              Leads(eligible[0], c) && (c != eligible[0] ==> Before(eligible[0], c))
  {
    forall c | c in cs && Feasible(c) ensures Leads(eligible[0], c) && (c != eligible[0] ==> Before(eligible[0], c)) {
      assert c in eligible;
      if c != eligible[0] {
        FirstIsLeast(eligible, Before, c);
      }
    }
  }

  /**
   * First a fair pick for each model; from there to `n` the best on hardware not yet shown, until
   * all is shown or there is no room; then the best of the rest.
   */
  ghost predicate Listed(eligible: seq<Candidate>, models: seq<int>, selected: seq<Candidate>, size: nat, n: nat) {
    var fair := Min(size, |models|);
    && fair <= n <= |selected|
    && (forall k :: 0 <= k < fair ==> FairPick(eligible, models[k], selected[k], HardwareOf(selected[..k])))
    && FreshFrom(eligible, selected, fair, n) && (n == size || AllShown(eligible, selected[..n]))
    && BestFrom(eligible, selected, n)
  }

  /** The shortlist of a candidate list with distinct ids. */
  method Choose(cs: seq<Candidate>, size: nat) returns (selected: seq<Candidate>)
    requires size >= 1 && DistinctIds(cs)
    ensures |selected| == Min(size, |Filter(Feasible, cs)|)
    ensures Distinct(selected) && forall c :: c in selected ==> c in cs && Feasible(c)
    ensures selected != [] ==> forall c :: c in cs && Feasible(c) ==> Leads(selected[0], c)
    ensures selected != [] ==> forall c :: c in cs && Feasible(c) && c != selected[0] ==> Before(selected[0], c)
    ensures exists n: nat :: Listed(Eligible(cs), Models(Eligible(cs)), selected, size, n)
  {
    var eligible := Eligible(cs);
    EligibleRanked(cs);
    var models := Models(eligible);
    ModelsOnce(eligible);
    forall i: nat | i < |models| ensures Options(eligible, models[i]) != [] {
      HasOption(eligible, models, i);
    }
    var picked := PickModels(eligible, models, size);
    if eligible != [] {
      FirstPickIsBest(eligible, models, picked);
    }
    selected := picked;
    ghost var n: nat := |picked|;
    if |picked| < size {
      var shown := AddHardware(eligible, models, picked, size);
      n := |shown|;
      selected := FillUp(eligible, models, shown, |picked|, size);
      FreshExtends(eligible, shown, selected, |picked|);
      assert selected[..n] == shown;
      assert eligible != [] ==> selected[0] == eligible[0];
    }
    assert Listed(eligible, models, selected, size, n);
    DistinctFits(selected, eligible);
    if |selected| < size {
      DistinctFits(eligible, selected);
    }
    if selected != [] {
      FirstLeads(cs, eligible);
    }
  }

  lemma FirstPickIsBest(eligible: seq<Candidate>, models: seq<int>, picked: seq<Candidate>)
    requires Ascending(eligible, Before) && eligible != [] && models == Models(eligible) && models != []
    requires models[0] == eligible[0].model
    requires picked != [] && Picked(eligible, models, picked, |picked|)
    ensures picked[0] == eligible[0]
  {
    assert FairPick(eligible, models[0], picked[0], HardwareOf(picked[..0]));
    assert HardwareOf(picked[..0]) == {};
    var best :| FairPickOver(eligible, models[0], best, picked[0], {});
    assert FreshOption(eligible, models[0], best, {}, best);
    if best != eligible[0] {
      FirstIsLeast(eligible, Before, best);
    }
  }
}
