// Workload contracts as loaded from JSON, and their validation.
module Contracts {
  import opened Ranking
  import opened Wrappers

  /** A JSON value, or its absence. */
  datatype Value = Missing | Null | Flag(b: bool) | Int(n: int) | Real(x: real) | Text(s: string) | Other

  /** A JSON object with the fields that matter, or something else in its place. */
  datatype Section<T> = Absent | Nothing | NotObject | Object(fields: T)

  datatype Distribution = Distribution(p50: Value, p95: Value, max: Value)

  /** `users` is `None` when it is not a list. */
  datatype Traffic = Traffic(users: Option<seq<Value>>)

  datatype Requests = Requests(input: Section<Distribution>, output: Section<Distribution>)

  datatype Context = Context(maximum: Value, repeated: real, shared: real)

  datatype Tools = Tools(enabled: bool, callsDefined: bool)

  datatype Response = Response(modes: seq<string>, defaultMode: string, probeTokens: Value, assistantTokens: Value)

  datatype Contract = Contract(schema: string, id: Value, workloadClass: Value, traffic: Section<Traffic>,
                               requests: Section<Requests>,
                               objectives: Section<nat>, context: Section<Context>, tools: Section<Tools>,
                               quality: Section<int>,
                               response: Section<Response>)

  datatype Problem =
    | UnsupportedSchema | BadId | BadClass | BadSection(section: string) | NoUsers | UsersNotPositive | DuplicateUsers
    | NotPositive(distribution: string, key: string) | NotMonotonic(distribution: string, key: string)
    | NoObjectives | ContextTooSmall | CallsWithoutTools | NoModes | DefaultModeUnknown
    | BadLimit(limit: string) | AnswerCutShort

  const SCHEMA := "srh.workload-contract.v1"

  // ----- what the checks accept -----

  predicate Positive(v: Value) { v.Int? && v.n >= 1 }

  /** Truth values pass for integers here: `isinstance(True, int)` holds. */
  function IntLike(v: Value): Option<int> {
    match v
    case Int(n) => Some(n)
    case Flag(b) => Some(if b then 1 else 0)
    case _ => None
  }

  function NumberLike(v: Value): Option<real> {
    match v
    case Real(x) => Some(x)
    case _ => if IntLike(v).Some? then Some(IntLike(v).value as real) else None
  }

  predicate NoLargerThan(low: Value, high: Value) {
    IntLike(low).Some? && IntLike(high).Some? ==> IntLike(low).value <= IntLike(high).value
  }

  predicate Undeclared(v: Value) { v.Missing? || v.Null? }

  predicate SoundDistribution(d: Section<Distribution>) {
    && d.Object?
    && Positive(d.fields.p50) && Positive(d.fields.p95)
    && (Undeclared(d.fields.max) || Positive(d.fields.max))
    && NoLargerThan(d.fields.p50, d.fields.p95) && NoLargerThan(d.fields.p95, d.fields.max)
  }

  function StripLeft(s: string): string { if s != [] && s[0] in " \t\r\n" then StripLeft(s[1..]) else s }

  predicate SoundHeader(c: Contract) {
    && c.schema == SCHEMA
    && c.id.Text? && StripLeft(c.id.s) != []
    && c.workloadClass.Text? && c.workloadClass.s != []
  }

  ghost predicate SoundUsers(users: seq<Value>) {
    users != [] && (forall i :: 0 <= i < |users| ==> Positive(users[i])) && Distinct(users)
  }

  ghost predicate SoundTraffic(t: Section<Traffic>) {
    t.Object? && t.fields.users.Some? && SoundUsers(t.fields.users.value)
  }

  function InputOf(c: Contract): Section<Distribution> {
    if c.requests.Object? then c.requests.fields.input else Absent
  }

  function OutputOf(c: Contract): Section<Distribution> {
    if c.requests.Object? then c.requests.fields.output else Absent
  }

  function MaxOf(d: Section<Distribution>): Value { if d.Object? then d.fields.max else Missing }

  function MaximumContext(c: Contract): Value { if c.context.Object? then c.context.fields.maximum else Missing }

  /** The two declared maxima, where the context check compares them. */
  predicate MaximaComparable(c: Contract) {
    !Undeclared(MaximumContext(c)) && IntLike(MaxOf(InputOf(c))).Some? && IntLike(MaxOf(OutputOf(c))).Some?
  }

  predicate SoundContext(c: Contract) {
    && !c.context.NotObject?
    && (MaximaComparable(c) && NumberLike(MaximumContext(c)).Some? ==>
          (IntLike(MaxOf(InputOf(c))).value + IntLike(MaxOf(OutputOf(c))).value) as real
            <= NumberLike(MaximumContext(c)).value)
  }

  predicate SoundTools(t: Section<Tools>) { !t.NotObject? && (t.Object? && t.fields.callsDefined ==> t.fields.enabled) }

  predicate SoundResponse(c: Contract) {
    && c.response.Object?
    && c.response.fields.modes != [] && c.response.fields.defaultMode in c.response.fields.modes
    && Positive(c.response.fields.probeTokens) && Positive(c.response.fields.assistantTokens)
    && NoLargerThan(MaxOf(OutputOf(c)), c.response.fields.assistantTokens)
  }

  /**
   * The validator itself fails: a section given as `null` is let past its type check and then
   * used as an object, and a maximum context that is no number cannot be compared.
   */
  predicate Crashes(c: Contract) {
    c.context.Nothing? || c.tools.Nothing? || c.quality.Nothing?
    || (MaximaComparable(c) && NumberLike(MaximumContext(c)).None?)
  }

  /** Accepted, and fit for everything that is later done with it. */
  ghost predicate Sound(c: Contract) {
    && !Crashes(c)
    && SoundHeader(c) && SoundTraffic(c.traffic) && c.requests.Object?
    && SoundDistribution(InputOf(c)) && SoundDistribution(OutputOf(c))
    && c.objectives.Object? && c.objectives.fields > 0
    && SoundContext(c) && SoundTools(c.tools) && !c.quality.NotObject? && SoundResponse(c)
  }

  /**
   * A section given as `null` crashes the validator on any contract that is otherwise sound;
   * leaving it out does not.
   */
  lemma NullSectionCrashes(c: Contract)
    requires Sound(c)
    ensures Crashes(c.(context := Nothing)) && Crashes(c.(tools := Nothing)) && Crashes(c.(quality := Nothing))
    ensures Sound(c.(context := Absent)) && Sound(c.(tools := Absent)) && Sound(c.(quality := Absent))
  {
    var bare := c.(context := Absent);
    assert InputOf(bare) == InputOf(c) && OutputOf(bare) == OutputOf(c);
    var plain := c.(tools := Absent);
    assert InputOf(plain) == InputOf(c) && OutputOf(plain) == OutputOf(c) && MaximumContext(plain) == MaximumContext(c);
    var free := c.(quality := Absent);
    assert InputOf(free) == InputOf(c) && OutputOf(free) == OutputOf(c) && MaximumContext(free) == MaximumContext(c);
  }

  // ----- the validator -----

  method ValidateDistribution(name: string, d: Section<Distribution>, errors: seq<Problem>) returns (more: seq<Problem>)
    ensures errors <= more && (more == errors <==> SoundDistribution(d))
  {
    more := errors;
    if !d.Object? {
      return more + [BadSection(name)];
    }
    var p50, p95, maximum := d.fields.p50, d.fields.p95, d.fields.max;
    if !Positive(p50) {
      more := more + [NotPositive(name, "p50")];
    }
    if !Positive(p95) {
      more := more + [NotPositive(name, "p95")];
    }
    if !Undeclared(maximum) && !Positive(maximum) {
      more := more + [NotPositive(name, "max")];
    }
    if IntLike(p50).Some? && IntLike(p95).Some? && IntLike(p50).value > IntLike(p95).value {
      more := more + [NotMonotonic(name, "p50")];
    }
    if IntLike(p95).Some? && IntLike(maximum).Some? && IntLike(p95).value > IntLike(maximum).value {
      more := more + [NotMonotonic(name, "p95")];
    }
  }

  method ValidateHeader(c: Contract) returns (errors: seq<Problem>)
    ensures errors == [] <==> SoundHeader(c)
  {
    errors := [];
    if c.schema != SCHEMA {
      errors := errors + [UnsupportedSchema];
    }
    if !c.id.Text? || StripLeft(c.id.s) == [] {
      errors := errors + [BadId];
    }
    if !c.workloadClass.Text? || c.workloadClass.s == [] {
      errors := errors + [BadClass];
    }
  }

  /** The set has as many members as the list exactly when the list repeats nothing. */
  lemma {:induction false} SetCountsDistinct<T>(s: seq<T>)
    ensures |set x | x in s| <= |s|
    ensures |set x | x in s| == |s| <==> Distinct(s)
  {
    if s != [] {
      var front, last := s[..|s| - 1], s[|s| - 1];
      SetCountsDistinct(front);
      assert s == front + [last];
      assert (set x | x in s) == (set x | x in front) + {last};
      if last in front {
        assert (set x | x in s) == (set x | x in front);
        var i :| 0 <= i < |front| && front[i] == last;
        assert s[i] == s[|s| - 1];
      }
    }
  }

  method ValidateTraffic(t: Section<Traffic>, errors: seq<Problem>) returns (more: seq<Problem>)
    ensures errors <= more && (more == errors <==> SoundTraffic(t))
  {
    more := errors;
    if !t.Object? {
      more := more + [BadSection("traffic")];
    }
    if !t.Object? || t.fields.users.None? || t.fields.users.value == [] {
      return more + [NoUsers];
    }
    var users := t.fields.users.value;
    SetCountsDistinct(users);
    if exists i :: 0 <= i < |users| && !Positive(users[i]) {
      more := more + [UsersNotPositive];
    } else if |users| != |set u | u in users| {
      more := more + [DuplicateUsers];
    }
  }

  method ValidateContext(c: Contract, errors: seq<Problem>) returns (more: seq<Problem>)
    requires !c.context.Nothing? && (MaximaComparable(c) ==> NumberLike(MaximumContext(c)).Some?)
    ensures errors <= more && (more == errors <==> SoundContext(c))
  {
    more := errors;
    if c.context.NotObject? {
      more := more + [BadSection("context_behavior")];
    }
    var maximum := MaximumContext(c);
    if !Undeclared(maximum) {
      var inputMax, outputMax := IntLike(MaxOf(InputOf(c))), IntLike(MaxOf(OutputOf(c)));
      if inputMax.Some? && outputMax.Some? && (inputMax.value + outputMax.value) as real > NumberLike(maximum).value {
        more := more + [ContextTooSmall];
      }
    }
  }

  method ValidateTools(t: Section<Tools>, errors: seq<Problem>) returns (more: seq<Problem>)
    ensures errors <= more && (more == errors <==> SoundTools(t))
  {
    more := errors;
    if t.NotObject? {
      more := more + [BadSection("tools")];
    }
    var enabled := t.Object? && t.fields.enabled;
    if !enabled && t.Object? && t.fields.callsDefined {
      more := more + [CallsWithoutTools];
    }
  }

  method ValidateResponse(c: Contract, errors: seq<Problem>) returns (more: seq<Problem>)
    ensures errors <= more && (more == errors <==> SoundResponse(c))
  {
    more := errors;
    if !c.response.Object? {
      return more + [BadSection("response_contract")];
    }
    var r := c.response.fields;
    if r.modes == [] {
      more := more + [NoModes];
    } else if r.defaultMode !in r.modes {
      more := more + [DefaultModeUnknown];
    }
    if !Positive(r.probeTokens) {
      more := more + [BadLimit("probe_max_tokens")];
    }
    if !Positive(r.assistantTokens) {
      more := more + [BadLimit("assistant_max_tokens")];
    }
    var cap, outputMax := IntLike(r.assistantTokens), IntLike(MaxOf(OutputOf(c)));
    if cap.Some? && outputMax.Some? && cap.value < outputMax.value {
      more := more + [AnswerCutShort];
    }
  }

  /** Raises exactly on a crash; otherwise the list of errors is empty exactly for a sound contract. */
  method ValidateContract(c: Contract) returns (result: Option<seq<Problem>>)
    ensures result.None? <==> Crashes(c)
    ensures result.Some? ==> (result.value == [] <==> Sound(c))
  {
    var errors := ValidateHeader(c);
    errors := ValidateTraffic(c.traffic, errors);
    if !c.requests.Object? {
      errors := errors + [BadSection("request_profile")];
    }
    errors := ValidateDistribution("input_tokens", InputOf(c), errors);
    errors := ValidateDistribution("output_tokens", OutputOf(c), errors);
    if !c.objectives.Object? {
      errors := errors + [BadSection("service_objectives")];
    }
    if !c.objectives.Object? || c.objectives.fields == 0 {
      errors := errors + [NoObjectives];
    }
    if c.context.Nothing? || (MaximaComparable(c) && NumberLike(MaximumContext(c)).None?) {
      return None;
    }
    errors := ValidateContext(c, errors);
    if c.tools.Nothing? {
      return None;
    }
    errors := ValidateTools(c.tools, errors);
    if c.quality.Nothing? {
      return None;
    } else if c.quality.NotObject? {
      errors := errors + [BadSection("quality")];
    }
    errors := ValidateResponse(c, errors);
    result := Some(errors);
  }
}
