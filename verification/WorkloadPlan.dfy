// The experiments planned for a sound workload contract.
module WorkloadPlan {
  import opened Contracts
  import opened Ranking
  import opened Wrappers

  datatype Class = P50 | P95 | Max

  datatype Cache = Warm | Cold | SharedPrefix

  /** Stands for the experiment id, with the number that is printed into it. */
  datatype Label =
    | Baseline | Scaling(c: int) | Tail(c: int) | MaxEnvelope | ColdTail
    | SharedNominal(c: int) | SharedTail(c: int)

  /** A token count is missing when the contract declares its maximum as `null`. */
  datatype Point = Point(name: Label, concurrency: int, input: Option<int>, output: Option<int>, class_: Class,
                         cache: Cache)

  datatype Key = Key(concurrency: int, input: Option<int>, output: Option<int>, cache: Cache)

  function KeyOf(p: Point): Key { Key(p.concurrency, p.input, p.output, p.cache) }

  function NameOf(p: Point): Label { p.name }

  // ----- reading the contract -----

  function Number(v: Value): int { if v.Int? then v.n else 0 }

  predicate Below(a: int, b: int) { a < b }

  function UserCounts(c: Contract): seq<int>
    requires c.traffic.Object? && c.traffic.fields.users.Some?
  {
    Map(Number, c.traffic.fields.users.value)
  }

  /** The declared concurrencies in ascending order. */
  function SortedUsers(c: Contract): seq<int>
    requires c.traffic.Object? && c.traffic.fields.users.Some?
  {
    SortBy(UserCounts(c), Below)
  }

  /** The sizes a plan asks for; an absent maximum falls back on the 95th percentile. */
  datatype Sizes = Sizes(p50: int, p95: int, max: Option<int>)

  function SizesOf(d: Distribution): Sizes {
    Sizes(Number(d.p50), Number(d.p95),
          if d.max.Missing? then Some(Number(d.p95)) else if d.max.Int? then Some(d.max.n) else None)
  }

  predicate Reuse(c: Contract) {
    c.context.Object? && (c.context.fields.repeated > 0.0 || c.context.fields.shared > 0.0)
  }

  // ----- the points -----

  function ScalingPoint(input: Sizes, output: Sizes): int -> Point {
    (c: int) => Point(Scaling(c), c, Some(input.p50), Some(output.p50), P50, Warm)
  }

  function BaselinePoint(least: int, input: Sizes, output: Sizes): Point {
    Point(Baseline, least, Some(input.p50), Some(output.p50), P50, Warm)
  }

  function TailPoints(least: int, most: int, input: Sizes, output: Sizes): seq<Point> {
    [Point(Tail(1), least, Some(input.p95), Some(output.p95), P95, Warm)]
    + (if most != least then [Point(Tail(most), most, Some(input.p95), Some(output.p95), P95, Warm)] else [])
    + (if input.max != Some(input.p95) || output.max != Some(output.p95) then
         [Point(MaxEnvelope, least, input.max, output.max, Max, Warm)]
       else [])
    + [Point(ColdTail, least, Some(input.p95), Some(output.p95), P95, Cold)]
  }

  function SharedPoints(least: int, most: int, input: Sizes, output: Sizes): seq<Point> {
    [Point(SharedNominal(least), least, Some(input.p50), Some(output.p50), P50, SharedPrefix),
     Point(SharedTail(most), most, Some(input.p95), Some(output.p50), P95, SharedPrefix)]
  }

  function AllPoints(users: seq<int>, input: Sizes, output: Sizes, reuse: bool): seq<Point>
    requires users != []
  {
    [BaselinePoint(users[0], input, output)] + Map(ScalingPoint(input, output), users[1..])
    + TailPoints(users[0], users[|users| - 1], input, output)
    + if reuse then SharedPoints(users[0], users[|users| - 1], input, output) else []
  }

  /** Each key keeps its first point. */
  function KeepFirst(points: seq<Point>): seq<Point> {
    if points == [] then []
    else
      var kept, last := KeepFirst(points[..|points| - 1]), points[|points| - 1];
      if KeyOf(last) in Map(KeyOf, kept) then kept else kept + [last]
  }

  function Plan(c: Contract): seq<Point>
    requires c.traffic.Object? && c.traffic.fields.users.Some? && c.traffic.fields.users.value != []
    requires InputOf(c).Object? && OutputOf(c).Object?
  {
    SortedLength(c);
    KeepFirst(AllPoints(SortedUsers(c), SizesOf(InputOf(c).fields), SizesOf(OutputOf(c).fields), Reuse(c)))
  }

  lemma SortedLength(c: Contract)
    requires c.traffic.Object? && c.traffic.fields.users.Some?
    ensures |SortedUsers(c)| == |c.traffic.fields.users.value|
  {
    SortKeeps(UserCounts(c), Below);
    SameMembers(UserCounts(c), SortedUsers(c));
  }

  // ----- the planner -----

  method Scale(users: seq<int>, input: Sizes, output: Sizes) returns (points: seq<Point>)
    requires users != [] && Distinct(users)
    ensures points == [BaselinePoint(users[0], input, output)] + Map(ScalingPoint(input, output), users[1..])
  {
    points := [BaselinePoint(users[0], input, output)];
    for i := 0 to |users|
      invariant points == [BaselinePoint(users[0], input, output)]
                  + Map(ScalingPoint(input, output), users[1..if i == 0 then 1 else i])
    {
      if users[i] != users[0] {
        assert i > 0 && users[1..i + 1] == users[1..i] + [users[i]];
        points := points + [Point(Scaling(users[i]), users[i], Some(input.p50), Some(output.p50), P50, Warm)];
      }
    }
    assert users[1..|users|] == users[1..];
  }

  method Unique(points: seq<Point>) returns (unique: seq<Point>)
    ensures unique == KeepFirst(points)
  {
    unique := [];
    var seen: set<Key> := {};
    for i := 0 to |points|
      invariant unique == KeepFirst(points[..i]) && forall k :: k in seen <==> k in Map(KeyOf, unique)
    {
      assert points[..i + 1][..i] == points[..i];
      var key := KeyOf(points[i]);
      if key !in seen {
        MapConcat(KeyOf, unique, [points[i]]);
        assert Map(KeyOf, [points[i]]) == [key];
        seen := seen + {key};
        unique := unique + [points[i]];
      }
    }
    assert points[..|points|] == points;
  }

  method AddTail(points: seq<Point>, least: int, most: int, input: Sizes, output: Sizes) returns (more: seq<Point>)
    ensures more == points + TailPoints(least, most, input, output)
  {
    more := [Point(Tail(1), least, Some(input.p95), Some(output.p95), P95, Warm)];
    if most != least {
      more := more + [Point(Tail(most), most, Some(input.p95), Some(output.p95), P95, Warm)];
    }
    if input.max != Some(input.p95) || output.max != Some(output.p95) {
      more := more + [Point(MaxEnvelope, least, input.max, output.max, Max, Warm)];
    }
    more := points + (more + [Point(ColdTail, least, Some(input.p95), Some(output.p95), P95, Cold)]);
  }

  method BuildPlan(c: Contract) returns (plan: seq<Point>)
    requires Sound(c)
    ensures plan == Plan(c)
  {
    var users := SortedUsers(c);
    UsersSorted(c);
    plan := Build(users, SizesOf(InputOf(c).fields), SizesOf(OutputOf(c).fields), Reuse(c));
  }

  method Build(users: seq<int>, input: Sizes, output: Sizes, reuse: bool) returns (plan: seq<Point>)
    requires users != [] && Distinct(users)
    ensures plan == KeepFirst(AllPoints(users, input, output, reuse))
  {
    var least, most := users[0], users[|users| - 1];
    var points := Scale(users, input, output);
    points := AddTail(points, least, most, input, output);
    if reuse {
      points := points + SharedPoints(least, most, input, output);
    }
    assert points == AllPoints(users, input, output, reuse);
    plan := Unique(points);
  }

  // ----- what every plan has -----

  lemma UsersSorted(c: Contract)
    requires SoundTraffic(c.traffic)
    ensures var users := SortedUsers(c);
            && users != [] && Distinct(users) && Ascending(users, Below)
            && (forall u :: u in users <==> u in UserCounts(c)) && forall u :: u in users ==> u >= 1
  {
    var counts, values := UserCounts(c), c.traffic.fields.users.value;
    forall i, j | 0 <= i < j < |counts| ensures counts[i] != counts[j] {
      assert values[i] != values[j] && Positive(values[i]) && Positive(values[j]);
    }
    var zone := iset u | u in counts;
    SortAscends(zone, counts, Below);
    SortedLength(c);
    forall i | 0 <= i < |counts| ensures counts[i] >= 1 {
      assert Positive(values[i]);
    }
  }

  lemma {:induction false} KeepFirstKeys(points: seq<Point>)
    ensures Distinct(Map(KeyOf, KeepFirst(points)))
    ensures forall k :: k in Map(KeyOf, KeepFirst(points)) <==> k in Map(KeyOf, points)
    ensures forall p :: p in KeepFirst(points) ==> p in points
    ensures points != [] ==> KeepFirst(points) != [] && KeepFirst(points)[0] == points[0]
  {
    if points != [] {
      var front, last := points[..|points| - 1], points[|points| - 1];
      KeepFirstKeys(front);
      assert points == front + [last];
      MapConcat(KeyOf, front, [last]);
      MapConcat(KeyOf, KeepFirst(front), [last]);
      assert Map(KeyOf, [last]) == [KeyOf(last)];
    }
  }

  /** Whatever is planned, something with the same key is measured. */
  lemma KeyKept(points: seq<Point>, p: Point)
    requires p in points
    ensures exists q :: q in KeepFirst(points) && KeyOf(q) == KeyOf(p)
  {
    KeepFirstKeys(points);
    var i :| 0 <= i < |points| && points[i] == p;
    assert Map(KeyOf, points)[i] == KeyOf(p);
    var kept := KeepFirst(points);
    assert KeyOf(p) in Map(KeyOf, kept);
    var j :| 0 <= j < |kept| && Map(KeyOf, kept)[j] == KeyOf(p);
    assert kept[j] in kept;
  }

  /** The plan starts with the baseline and measures no key twice. */
  lemma PlanStartsWithBaseline(c: Contract)
    requires Sound(c)
    ensures Plan(c) != [] && Distinct(Map(KeyOf, Plan(c)))
    ensures Plan(c)[0].name == Baseline && Plan(c)[0].concurrency in UserCounts(c)
    ensures forall u :: u in UserCounts(c) ==> Plan(c)[0].concurrency <= u
    ensures KeyOf(Plan(c)[0]) == NominalKey(c, Plan(c)[0].concurrency)
  {
    UsersSorted(c);
    var users := SortedUsers(c);
    KeepFirstKeys(AllPoints(users, SizesOf(InputOf(c).fields), SizesOf(OutputOf(c).fields), Reuse(c)));
    forall u | u in users ensures users[0] <= u {
      if u != users[0] {
        FirstIsLeast(users, Below, u);
      }
    }
    assert users[0] in users;
  }

  /** The warm measurement of the typical request at this concurrency. */
  ghost function NominalKey(c: Contract, users: int): Key
    requires Sound(c)
  {
    Key(users, Some(InputOf(c).fields.p50.n), Some(OutputOf(c).fields.p50.n), Warm)
  }

  /** Every declared concurrency is measured warm with the typical request. */
  lemma PlanCoversUsers(c: Contract, users: int)
    requires Sound(c) && users in UserCounts(c)
    ensures exists p :: p in Plan(c) && KeyOf(p) == NominalKey(c, users)
  {
    UsersSorted(c);
    var sorted := SortedUsers(c);
    var input, output := SizesOf(InputOf(c).fields), SizesOf(OutputOf(c).fields);
    var points := AllPoints(sorted, input, output, Reuse(c));
    assert users in sorted;
    var i :| 0 <= i < |sorted| && sorted[i] == users;
    var p := points[i];
    if i > 0 {
      var scaled := Map(ScalingPoint(input, output), sorted[1..]);
      assert p == scaled[i - 1] && sorted[1..][i - 1] == users;
    }
    assert KeyOf(p) == NominalKey(c, users);
    KeyKept(points, p);
  }

  // ----- exactly what is measured -----

  ghost predicate IsLeastLoad(c: Contract, u: int)
    requires Sound(c)
  {
    u in UserCounts(c) && forall v :: v in UserCounts(c) ==> u <= v
  }

  ghost predicate IsLargestLoad(c: Contract, u: int)
    requires Sound(c)
  {
    u in UserCounts(c) && forall v :: v in UserCounts(c) ==> v <= u
  }

  /** The declared maximum; the 95th percentile for want of one, and nothing for a null one. */
  function Declared(d: Distribution): Option<int> {
    match d.max
    case Missing => (match d.p95 case Int(n) => Some(n) case _ => None)
    case Int(n) => Some(n)
    case _ => None
  }

  /**
   * What the contract asks to have measured: the typical request warm under every load; the tail
   * request warm under the least and the largest load and cold under the least; the largest one
   * warm under the least; and, only where context is expected to be reused, shared context.
   */
  ghost predicate Wanted(c: Contract, k: Key)
    requires Sound(c)
  {
    var input, output := InputOf(c).fields, OutputOf(c).fields;
    var typical, tail := k.input == Some(input.p50.n), k.input == Some(input.p95.n);
    var short, long := k.output == Some(output.p50.n), k.output == Some(output.p95.n);
    match k.cache
    case Warm =>
      || (k.concurrency in UserCounts(c) && typical && short)
      || ((IsLeastLoad(c, k.concurrency) || IsLargestLoad(c, k.concurrency)) && tail && long)
      || (IsLeastLoad(c, k.concurrency) && k.input == Declared(input) && k.output == Declared(output))
    case Cold => IsLeastLoad(c, k.concurrency) && tail && long
    case SharedPrefix =>
      && c.context.Object? && (c.context.fields.repeated > 0.0 || c.context.fields.shared > 0.0)
      && ((IsLeastLoad(c, k.concurrency) && typical && short) || (IsLargestLoad(c, k.concurrency) && tail && short))
  }

  lemma Extremes(c: Contract)
    requires Sound(c)
    ensures var users := SortedUsers(c);
            users != [] && IsLeastLoad(c, users[0]) && IsLargestLoad(c, users[|users| - 1])
  {
    UsersSorted(c);
    var users := SortedUsers(c);
    var n := |users| - 1;
    assert users[0] in users && users[n] in users;
    forall v | v in UserCounts(c) ensures users[0] <= v <= users[n] {
      assert v in users;
      var i :| 0 <= i < |users| && users[i] == v;
      assert i > 0 ==> Below(users[0], users[i]);
      assert i < n ==> Below(users[i], users[n]);
    }
  }

  /** Which part of the plan a point is from. */
  lemma PartOf(users: seq<int>, input: Sizes, output: Sizes, reuse: bool, p: Point)
    requires users != [] && p in AllPoints(users, input, output, reuse)
    ensures || (p.concurrency in users && KeyOf(p) == Key(p.concurrency, Some(input.p50), Some(output.p50), Warm))
            || p in TailPoints(users[0], users[|users| - 1], input, output)
            || (reuse && p in SharedPoints(users[0], users[|users| - 1], input, output))
  {
    var scaled := Map(ScalingPoint(input, output), users[1..]);
    if p in scaled {
      var i :| 0 <= i < |scaled| && scaled[i] == p;
      assert users[i + 1] in users;
    }
  }

  lemma PointWanted(c: Contract, p: Point)
    requires Sound(c) && SortedUsers(c) != []
    requires p in AllPoints(SortedUsers(c), SizesOf(InputOf(c).fields), SizesOf(OutputOf(c).fields), Reuse(c))
    ensures Wanted(c, KeyOf(p))
  {
    UsersSorted(c);
    Extremes(c);
    PartOf(SortedUsers(c), SizesOf(InputOf(c).fields), SizesOf(OutputOf(c).fields), Reuse(c), p);
  }

  lemma ColdPoint(users: seq<int>, input: Sizes, output: Sizes, reuse: bool) returns (p: Point)
    requires users != []
    ensures p in AllPoints(users, input, output, reuse)
    ensures KeyOf(p) == Key(users[0], Some(input.p95), Some(output.p95), Cold)
  {
    var tail := TailPoints(users[0], users[|users| - 1], input, output);
    p := tail[|tail| - 1];
    assert p in tail;
  }

  lemma TailPoint(users: seq<int>, input: Sizes, output: Sizes, reuse: bool, u: int) returns (p: Point)
    requires users != [] && (u == users[0] || u == users[|users| - 1])
    ensures p in AllPoints(users, input, output, reuse)
    ensures KeyOf(p) == Key(u, Some(input.p95), Some(output.p95), Warm)
  {
    var tail := TailPoints(users[0], users[|users| - 1], input, output);
    p := if u == users[0] then tail[0] else tail[1];
    assert p in tail;
  }

  lemma SharedPoint(users: seq<int>, input: Sizes, output: Sizes, nominal: bool) returns (p: Point)
    requires users != []
    ensures p in AllPoints(users, input, output, true)
    ensures KeyOf(p) == if nominal then Key(users[0], Some(input.p50), Some(output.p50), SharedPrefix)
                        else Key(users[|users| - 1], Some(input.p95), Some(output.p50), SharedPrefix)
  {
    var shared := SharedPoints(users[0], users[|users| - 1], input, output);
    p := if nominal then shared[0] else shared[1];
    assert p in shared;
  }

  lemma WantedPoint(c: Contract, k: Key) returns (p: Point)
    requires Sound(c) && SortedUsers(c) != [] && Wanted(c, k)
    ensures p in AllPoints(SortedUsers(c), SizesOf(InputOf(c).fields), SizesOf(OutputOf(c).fields), Reuse(c))
    ensures KeyOf(p) == k
  {
    UsersSorted(c);
    Extremes(c);
    var users, input, output := SortedUsers(c), SizesOf(InputOf(c).fields), SizesOf(OutputOf(c).fields);
    match k.cache {
      case Cold => p := ColdPoint(users, input, output, Reuse(c));
      case SharedPrefix =>
        p := SharedPoint(users, input, output, k.input == Some(input.p50) && k.concurrency == users[0]);
      case Warm =>
        if k.concurrency in UserCounts(c) && k.input == Some(input.p50) && k.output == Some(output.p50) {
          p := TypicalPoint(users, input, output, k.concurrency);
        } else if k.input == Some(input.p95) && k.output == Some(output.p95) {
          p := TailPoint(users, input, output, Reuse(c), k.concurrency);
        } else {
          p := LargestPoint(users, input, output, Reuse(c));
        }
    }
  }

  lemma TypicalPoint(users: seq<int>, input: Sizes, output: Sizes, u: int) returns (p: Point)
    requires u in users
    ensures p in [BaselinePoint(users[0], input, output)] + Map(ScalingPoint(input, output), users[1..])
    ensures KeyOf(p) == Key(u, Some(input.p50), Some(output.p50), Warm)
  {
    var scaled := Map(ScalingPoint(input, output), users[1..]);
    var i :| 0 <= i < |users| && users[i] == u;
    if i == 0 {
      p := BaselinePoint(users[0], input, output);
    } else {
      p := scaled[i - 1];
      assert users[1..][i - 1] == u && p in scaled;
    }
  }

  /** A plan measures exactly what is wanted. */
  lemma PlanIsWanted(c: Contract, k: Key)
    requires Sound(c)
    ensures (exists p :: p in Plan(c) && KeyOf(p) == k) <==> Wanted(c, k)
  {
    UsersSorted(c);
    var points := AllPoints(SortedUsers(c), SizesOf(InputOf(c).fields), SizesOf(OutputOf(c).fields), Reuse(c));
    KeepFirstKeys(points);
    if p :| p in Plan(c) && KeyOf(p) == k {
      PointWanted(c, p);
    }
    if Wanted(c, k) {
      var p := WantedPoint(c, k);
      KeyKept(points, p);
    }
  }

  /** The percentile class a point carries is that of its sizes; shared context asks for short answers. */
  ghost predicate Classed(c: Contract, p: Point)
    requires Sound(c)
  {
    var input, output := InputOf(c).fields, OutputOf(c).fields;
    match p.class_
    case P50 => p.input == Some(input.p50.n) && p.output == Some(output.p50.n)
    case P95 =>
      && p.input == Some(input.p95.n)
      && p.output == Some(if p.cache == SharedPrefix then output.p50.n else output.p95.n)
    case Max => p.input == Declared(input) && p.output == Declared(output)
  }

  lemma PointClassed(c: Contract, p: Point)
    requires Sound(c) && SortedUsers(c) != []
    requires p in AllPoints(SortedUsers(c), SizesOf(InputOf(c).fields), SizesOf(OutputOf(c).fields), Reuse(c))
    ensures Classed(c, p)
  {
    var users, input, output := SortedUsers(c), SizesOf(InputOf(c).fields), SizesOf(OutputOf(c).fields);
    var scaled := Map(ScalingPoint(input, output), users[1..]);
    if p in scaled {
      var i :| 0 <= i < |scaled| && scaled[i] == p;
    }
  }

  lemma PlanClassed(c: Contract)
    requires Sound(c)
    ensures forall p :: p in Plan(c) ==> Classed(c, p)
  {
    UsersSorted(c);
    KeepFirstKeys(AllPoints(SortedUsers(c), SizesOf(InputOf(c).fields), SizesOf(OutputOf(c).fields), Reuse(c)));
    forall p | p in Plan(c) ensures Classed(c, p) {
      PointClassed(c, p);
    }
  }

  // ----- the declared context -----

  predicate Fits(p: Point, limit: int) { p.input.Some? && p.output.Some? && p.input.value + p.output.value <= limit }

  /** The largest request the plan may make. */
  ghost predicate EnvelopeFits(c: Contract, limit: int)
    requires Sound(c)
  {
    var input, output := SizesOf(InputOf(c).fields), SizesOf(OutputOf(c).fields);
    input.max.Some? && output.max.Some? && input.max.value + output.max.value <= limit
  }

  lemma SizesOrdered(d: Section<Distribution>)
    requires SoundDistribution(d)
    ensures var s := SizesOf(d.fields); 1 <= s.p50 <= s.p95 && (s.max.Some? ==> s.p95 <= s.max.value)
    ensures SizesOf(d.fields).max.None? <==> d.fields.max.Null?
  {
  }

  lemma PointsFit(users: seq<int>, input: Sizes, output: Sizes, reuse: bool, limit: int, p: Point)
    requires users != [] && p in AllPoints(users, input, output, reuse)
    requires 1 <= input.p50 <= input.p95 && 1 <= output.p50 <= output.p95
    requires input.max.Some? && output.max.Some? && input.p95 <= input.max.value && output.p95 <= output.max.value
    requires input.max.value + output.max.value <= limit
    ensures Fits(p, limit)
  {
    var scaled := Map(ScalingPoint(input, output), users[1..]);
    if p in scaled {
      var i :| 0 <= i < |scaled| && scaled[i] == p;
    }
  }

  /**
   * Every planned request fits a limit exactly when the largest one does; an undeclared maximum
   * means the 95th percentile.
   */
  lemma PlanFitsExactly(c: Contract, limit: int)
    requires Sound(c)
    ensures (forall p :: p in Plan(c) ==> Fits(p, limit)) <==> EnvelopeFits(c, limit)
  {
    UsersSorted(c);
    SizesOrdered(InputOf(c));
    SizesOrdered(OutputOf(c));
    var users := SortedUsers(c);
    var input, output := SizesOf(InputOf(c).fields), SizesOf(OutputOf(c).fields);
    var points := AllPoints(users, input, output, Reuse(c));
    KeepFirstKeys(points);
    if EnvelopeFits(c, limit) {
      forall p | p in Plan(c) ensures Fits(p, limit) {
        PointsFit(users, input, output, Reuse(c), limit, p);
      }
    } else {
      var largest := LargestPoint(users, input, output, Reuse(c));
      KeyKept(points, largest);
      var q :| q in KeepFirst(points) && KeyOf(q) == KeyOf(largest);
      assert q in Plan(c) && !Fits(q, limit);
    }
  }

  /** Some point asks for both maxima. */
  lemma LargestPoint(users: seq<int>, input: Sizes, output: Sizes, reuse: bool) returns (p: Point)
    requires users != []
    ensures p in AllPoints(users, input, output, reuse) && KeyOf(p) == Key(users[0], input.max, output.max, Warm)
  {
    var tail := TailPoints(users[0], users[|users| - 1], input, output);
    if input.max != Some(input.p95) || output.max != Some(output.p95) {
      p := Point(MaxEnvelope, users[0], input.max, output.max, Max, Warm);
    } else {
      p := tail[0];
    }
    assert p in tail;
  }

  /** With both maxima declared, no planned request exceeds the declared maximum context. */
  lemma DeclaredPlanFits(c: Contract, limit: int)
    requires Sound(c) && c.context.Object? && c.context.fields.maximum == Int(limit)
    requires InputOf(c).fields.max.Int? && OutputOf(c).fields.max.Int?
    ensures forall p :: p in Plan(c) ==> Fits(p, limit)
  {
    PlanFitsExactly(c, limit);
  }

  /** Without declared maxima a sound contract can plan requests beyond its own maximum context. */
  lemma UndeclaredPlanMayNotFit() returns (c: Contract)
    ensures Sound(c) && c.context.Object? && c.context.fields.maximum == Int(10)
    ensures exists p :: p in Plan(c) && !Fits(p, 10)
  {
    var d := Distribution(Int(8), Int(8), Missing);
    c := Contract(SCHEMA, Text("w"), Text("mixed"), Object(Traffic(Some([Int(1)]))),
                  Object(Requests(Object(d), Object(d))),
                  Object(1), Object(Context(Int(10), 0.0, 0.0)), Absent, Absent,
                  Object(Response(["probe"], "probe", Int(8), Int(8))));
    assert StripLeft("w") == "w";
    PlanFitsExactly(c, 10);
  }

  /** Which part of the plan a name belongs to. */
  function Part(name: Label): nat {
    match name
    case Baseline => 0
    case Scaling(_) => 0
    case SharedNominal(_) => 2
    case SharedTail(_) => 2
    case _ => 1
  }

  /** Points of one part, no name twice. */
  ghost predicate NamedApart(points: seq<Point>, low: nat, high: nat) {
    && (forall i, j :: 0 <= i < j < |points| ==> points[i].name != points[j].name)
    && forall i :: 0 <= i < |points| ==> low <= Part(points[i].name) <= high
  }

  lemma ApartConcat(s: seq<Point>, t: seq<Point>, low: nat, middle: nat, high: nat)
    requires NamedApart(s, low, middle) && NamedApart(t, middle + 1, high) && low <= middle <= high
    ensures NamedApart(s + t, low, high)
  {
  }

  lemma ScalingApart(users: seq<int>, input: Sizes, output: Sizes)
    requires users != [] && Ascending(users, Below)
    ensures NamedApart([BaselinePoint(users[0], input, output)] + Map(ScalingPoint(input, output), users[1..]), 0, 0)
  {
    var scaled := Map(ScalingPoint(input, output), users[1..]);
    forall i, j | 0 <= i < j < |scaled| ensures scaled[i].name != scaled[j].name {
      assert Below(users[i + 1], users[j + 1]);
    }
  }

  lemma TailApart(least: int, most: int, input: Sizes, output: Sizes)
    requires most == least || most > 1
    ensures NamedApart(TailPoints(least, most, input, output), 1, 1)
  {
  }

  lemma NamesDistinct(users: seq<int>, input: Sizes, output: Sizes, reuse: bool)
    requires users != [] && Ascending(users, Below) && users[0] >= 1
    ensures Distinct(Map(NameOf, AllPoints(users, input, output, reuse)))
  {
    var n := |users|;
    assert n > 1 ==> Below(users[0], users[n - 1]);
    ScalingApart(users, input, output);
    var scaling := [BaselinePoint(users[0], input, output)] + Map(ScalingPoint(input, output), users[1..]);
    var tail := TailPoints(users[0], users[n - 1], input, output);
    var shared := if reuse then SharedPoints(users[0], users[n - 1], input, output) else [];
    TailApart(users[0], users[n - 1], input, output);
    ApartConcat(scaling, tail, 0, 0, 1);
    ApartConcat(scaling + tail, shared, 0, 1, 2);
    assert AllPoints(users, input, output, reuse) == scaling + tail + shared;
  }

  lemma {:induction false} KeptNamesDistinct(points: seq<Point>)
    requires Distinct(Map(NameOf, points))
    ensures Distinct(Map(NameOf, KeepFirst(points)))
  {
    if points != [] {
      var n := |points| - 1;
      MapTake(NameOf, points, n);
      KeptNamesDistinct(points[..n]);
      KeepFirstKeys(points[..n]);
      var kept := KeepFirst(points[..n]);
      forall i | 0 <= i < |kept| ensures kept[i].name != points[n].name {
        assert kept[i] in points[..n];
        var j :| 0 <= j < n && points[j] == kept[i];
        assert Map(NameOf, points)[j] != Map(NameOf, points)[n];
      }
    }
  }

  /** No two points of a plan carry the same experiment id. */
  lemma PlanNamesDistinct(c: Contract)
    requires Sound(c)
    ensures Distinct(Map(NameOf, Plan(c)))
  {
    UsersSorted(c);
    var users := SortedUsers(c);
    assert users[0] in users;
    var input, output := SizesOf(InputOf(c).fields), SizesOf(OutputOf(c).fields);
    NamesDistinct(users, input, output, Reuse(c));
    KeptNamesDistinct(AllPoints(users, input, output, Reuse(c)));
  }
}
