// Client intake, and its translation into a workload contract.
module Intake {
  import opened Arithmetic
  import opened Contracts
  import opened Ranking
  import opened WorkloadPlan
  import opened Wrappers

  datatype Users = Users(total: Value, concurrent: Value, perDay: Value, peakPerMinute: Value)

  /** `retrieval` tells whether only retrieved pages go into the context. */
  datatype Documents = Documents(pages: Section<Distribution>, retrieved: Section<Distribution>, scanned: Value,
                                 shared: Value,
                                 repeated: Value, retrieval: bool)

  datatype Experience = Experience(first: Value, complete: Value, errorRate: Value)

  datatype Exploration = Exploration(hardware: nat, models: nat, weightBits: seq<Value>, families: Option<seq<Value>>)

  datatype Assumptions = Assumptions(wordsPerPage: Option<real>, tokensPerWord: Option<real>,
                                     promptOverhead: Option<int>)

  datatype ClientIntake = ClientIntake(schema: string, id: Value, workloadClass: Value, traffic: Section<Users>,
                                       documents: Section<Documents>,
                                       words: Section<Section<Distribution>>, experience: Section<Experience>,
                                       quality: Section<Value>,
                                       exploration: Section<Exploration>, assumptions: Assumptions)

  const INTAKE_SCHEMA := "srh.client-intake.v1"

  // ----- validation -----

  predicate PositiveNumber(v: Value) { (v.Int? && v.n > 0) || (v.Real? && v.x > 0.0) }

  function Amount(v: Value): real { if v.Int? then v.n as real else if v.Real? then v.x else 0.0 }

  predicate ValidDistribution(d: Section<Distribution>) {
    && d.Object?
    && PositiveNumber(d.fields.p50) && PositiveNumber(d.fields.p95) && PositiveNumber(d.fields.max)
    && Amount(d.fields.p50) <= Amount(d.fields.p95) <= Amount(d.fields.max)
  }

  /** A number between 0 and 1, or nothing. */
  predicate ValidFraction(v: Value) { v.Missing? || ((v.Int? || v.Real?) && 0.0 <= Amount(v) <= 1.0) }

  predicate ValidUsers(t: Section<Users>) {
    && t.Object?
    && Positive(t.fields.total) && Positive(t.fields.concurrent) && t.fields.concurrent.n <= t.fields.total.n
    && PositiveNumber(t.fields.perDay) && PositiveNumber(t.fields.peakPerMinute)
  }

  predicate ValidDocuments(d: Section<Documents>) {
    && d.Object?
    && ValidDistribution(d.fields.pages) && ValidDistribution(d.fields.retrieved)
    && ValidFraction(d.fields.scanned) && ValidFraction(d.fields.shared) && ValidFraction(d.fields.repeated)
  }

  predicate ValidExperience(e: Section<Experience>) {
    && e.Object?
    && PositiveNumber(e.fields.first) && PositiveNumber(e.fields.complete)
    && Amount(e.fields.first) < Amount(e.fields.complete)
    && ValidFraction(e.fields.errorRate)
  }

  predicate NamesSomething(v: Value) { v.Text? && StripLeft(v.s) != [] }

  predicate ValidExploration(x: Section<Exploration>) {
    && x.Object?
    && x.fields.hardware > 0 && x.fields.models > 0 && x.fields.weightBits != []
    && (forall i :: 0 <= i < |x.fields.weightBits| ==> Positive(x.fields.weightBits[i]))
    && x.fields.families.Some? && forall i :: 0 <= i < |x.fields.families.value| ==>
         NamesSomething(x.fields.families.value[i])
  }

  predicate ValidIntake(i: ClientIntake) {
    && i.schema == INTAKE_SCHEMA && NamesSomething(i.id)
    && ValidUsers(i.traffic) && ValidDocuments(i.documents)
    && i.words.Object? && ValidDistribution(i.words.fields)
    && ValidExperience(i.experience)
    && (i.quality.Absent? || (i.quality.Object? && ValidFraction(i.quality.fields)))
    && ValidExploration(i.exploration)
  }

  // ----- translation -----

  function Default<T>(o: Option<T>, otherwise: T): T { if o.Some? then o.value else otherwise }

  function WordsPerPage(a: Assumptions): real { Default(a.wordsPerPage, 450.0) }

  function TokensPerWord(a: Assumptions): real { Default(a.tokensPerWord, 1.34) }

  function PromptOverhead(a: Assumptions): int { Default(a.promptOverhead, 256) }

  predicate ValidAssumptions(a: Assumptions) {
    WordsPerPage(a) > 0.0 && TokensPerWord(a) > 0.0 && PromptOverhead(a) >= 0
  }

  function Ceil(x: real): int { -((-x).Floor) }

  function InputTokens(a: Assumptions, pages: real): int {
    Ceil(pages * WordsPerPage(a) * TokensPerWord(a) + PromptOverhead(a) as real)
  }

  function OutputTokens(a: Assumptions, words: real): int { Ceil(words * TokensPerWord(a)) }

  function Convert(d: Distribution, tokens: real -> int): Distribution {
    Distribution(Int(tokens(Amount(d.p50))), Int(tokens(Amount(d.p95))), Int(tokens(Amount(d.max))))
  }

  /** The probability used when none is given: not the 0 that validation puts in its place. */
  function Probability(v: Value, otherwise: real): real { if v.Missing? then otherwise else Amount(v) }

  function PagesUsed(d: Documents): Section<Distribution> { if d.retrieval then d.retrieved else d.pages }

  function ClassOf(i: ClientIntake): Value { if i.workloadClass.Missing? then Text("mixed") else i.workloadClass }

  function Translate(i: ClientIntake): Contract
    requires ValidIntake(i)
  {
    var docs, a := i.documents.fields, i.assumptions;
    var input := Convert(PagesUsed(docs).fields, (pages: real) => InputTokens(a, pages));
    var output := Convert(i.words.fields.fields, (words: real) => OutputTokens(a, words));
    var concurrent := i.traffic.fields.concurrent.n;
    Contract(SCHEMA, i.id, ClassOf(i),
             Object(Traffic(Some(if concurrent == 1 then [Int(1)] else [Int(1), Int(concurrent)]))),
             Object(Requests(Object(input), Object(output))),
             Object(4),
             Object(Context(Int(input.max.n + output.max.n), Probability(docs.repeated, 0.2),
                            Probability(docs.shared, 0.3))),
             Object(Tools(false, false)), Object(0),
             Object(Response(["probe", "assistant"], "assistant", Int(Min(128, output.p50.n)), output.max)))
  }

  /** The contract, or `None` when the intake, the assumptions or the translated contract is refused. */
  method TranslateIntake(i: ClientIntake) returns (contract: Option<Contract>)
    ensures contract.Some? <==>
            (ValidIntake(i) && ValidAssumptions(i.assumptions) && ClassOf(i).Text? && ClassOf(i).s != [])
    ensures contract.Some? ==> contract.value == Translate(i) && Sound(contract.value)
  {
    if !ValidIntake(i) || !ValidAssumptions(i.assumptions) {
      return None;
    }
    var c := Translate(i);
    TranslationSound(i);
    var errors := ValidateContract(c);
    if errors.None? || errors.value != [] {
      return None;
    }
    contract := Some(c);
  }

  // ----- why a translated contract is sound -----

  lemma ProductOrdered(a: real, b: real, k: real)
    requires 0.0 < a <= b && k > 0.0
    ensures 0.0 < a * k <= b * k
  {
  }

  lemma CeilOrdered(x: real, y: real)
    requires 0.0 < x <= y
    ensures 1 <= Ceil(x) <= Ceil(y)
  {
    assert (-y).Floor <= (-x).Floor;
  }

  lemma InputOrdered(a: Assumptions, x: real, y: real)
    requires ValidAssumptions(a) && 0.0 < x <= y
    ensures 1 <= InputTokens(a, x) <= InputTokens(a, y)
  {
    var words := WordsPerPage(a);
    ProductOrdered(x, y, words);
    ProductOrdered(x * words, y * words, TokensPerWord(a));
    CeilOrdered(x * words * TokensPerWord(a) + PromptOverhead(a) as real,
                y * words * TokensPerWord(a) + PromptOverhead(a) as real);
  }

  lemma OutputOrdered(a: Assumptions, x: real, y: real)
    requires ValidAssumptions(a) && 0.0 < x <= y
    ensures 1 <= OutputTokens(a, x) <= OutputTokens(a, y)
  {
    ProductOrdered(x, y, TokensPerWord(a));
    CeilOrdered(x * TokensPerWord(a), y * TokensPerWord(a));
  }

  lemma InputSound(a: Assumptions, d: Section<Distribution>)
    requires ValidAssumptions(a) && ValidDistribution(d)
    ensures SoundDistribution(Object(Convert(d.fields, (pages: real) => InputTokens(a, pages))))
  {
    InputOrdered(a, Amount(d.fields.p50), Amount(d.fields.p95));
    InputOrdered(a, Amount(d.fields.p95), Amount(d.fields.max));
  }

  lemma OutputSound(a: Assumptions, d: Section<Distribution>)
    requires ValidAssumptions(a) && ValidDistribution(d)
    ensures var converted := Convert(d.fields, (words: real) => OutputTokens(a, words));
            SoundDistribution(Object(converted)) && converted.p50.n >= 1 && converted.max.n >= 1
  {
    OutputOrdered(a, Amount(d.fields.p50), Amount(d.fields.p95));
    OutputOrdered(a, Amount(d.fields.p95), Amount(d.fields.max));
  }

  lemma UsersSound(concurrent: int)
    requires concurrent >= 1
    ensures SoundUsers(if concurrent == 1 then [Int(1)] else [Int(1), Int(concurrent)])
  {
  }

  /**
   * A valid intake never crashes the validator, and its contract is sound exactly when its workload
   * class is a non-empty string.
   */
  lemma TranslationSound(i: ClientIntake)
    requires ValidIntake(i) && ValidAssumptions(i.assumptions)
    ensures !Crashes(Translate(i))
    ensures Sound(Translate(i)) <==> ClassOf(i).Text? && ClassOf(i).s != []
  {
    InputSound(i.assumptions, PagesUsed(i.documents.fields));
    OutputSound(i.assumptions, i.words.fields);
    UsersSound(i.traffic.fields.concurrent.n);
    var c := Translate(i);
    assert "assistant" == c.response.fields.modes[1];
  }

  lemma CeilMeans(x: real)
    ensures Ceil(x) as real - 1.0 < x <= Ceil(x) as real
  {
  }

  /** `tokens` is the least whole number that is enough for `exact`. */
  predicate JustEnough(tokens: Value, exact: real) { tokens.Int? && tokens.n as real - 1.0 < exact <= tokens.n as real }

  /** Unless assumed otherwise: 450 words a page, 1.34 tokens a word, 256 tokens around the pages. */
  predicate EnoughForPages(a: Assumptions, pages: Value, tokens: Value) {
    var words := if a.wordsPerPage.Some? then a.wordsPerPage.value else 450.0;
    var perWord := if a.tokensPerWord.Some? then a.tokensPerWord.value else 1.34;
    var around := if a.promptOverhead.Some? then a.promptOverhead.value else 256;
    JustEnough(tokens, Amount(pages) * (words * perWord) + around as real)
  }

  predicate EnoughForWords(a: Assumptions, words: Value, tokens: Value) {
    JustEnough(tokens, Amount(words) * if a.tokensPerWord.Some? then a.tokensPerWord.value else 1.34)
  }

  lemma PagesConverted(a: Assumptions, pages: Value)
    ensures EnoughForPages(a, pages, Int(InputTokens(a, Amount(pages))))
  {
    CeilMeans(Amount(pages) * WordsPerPage(a) * TokensPerWord(a) + PromptOverhead(a) as real);
  }

  lemma WordsConverted(a: Assumptions, words: Value)
    ensures EnoughForWords(a, words, Int(OutputTokens(a, Amount(words))))
  {
    CeilMeans(Amount(words) * TokensPerWord(a));
  }

  /**
   * Each translated size is just enough for what it stands for: the pages retrieved, or in the
   * other mode all pages, and the words of an answer.
   */
  lemma TranslatedSizes(i: ClientIntake)
    requires ValidIntake(i)
    ensures var input, d := InputOf(Translate(i)).fields, i.documents.fields;
            var pages := if d.retrieval then d.retrieved.fields else d.pages.fields;
            EnoughForPages(i.assumptions, pages.p50, input.p50) && EnoughForPages(i.assumptions, pages.p95, input.p95)
            && EnoughForPages(i.assumptions, pages.max, input.max)
    ensures var output, words := OutputOf(Translate(i)).fields, i.words.fields.fields;
            EnoughForWords(i.assumptions, words.p50, output.p50) && EnoughForWords(i.assumptions, words.p95, output.p95)
            && EnoughForWords(i.assumptions, words.max, output.max)
  {
    var a, pages, words := i.assumptions, PagesUsed(i.documents.fields).fields, i.words.fields.fields;
    PagesConverted(a, pages.p50);
    PagesConverted(a, pages.p95);
    PagesConverted(a, pages.max);
    WordsConverted(a, words.p50);
    WordsConverted(a, words.p95);
    WordsConverted(a, words.max);
  }

  /**
   * The declared context is exactly what the largest request needs; the assistant may use the
   * whole answer, the probe a typical answer but at most 128 tokens.
   */
  lemma TranslatedLimits(i: ClientIntake)
    requires ValidIntake(i)
    ensures var c := Translate(i);
            var probe, typical := c.response.fields.probeTokens, OutputOf(c).fields.p50;
            && MaximumContext(c) == Int(InputOf(c).fields.max.n + OutputOf(c).fields.max.n)
            && c.response.fields.assistantTokens == OutputOf(c).fields.max
            && probe.n <= 128 && probe.n <= typical.n && (probe.n == 128 || probe == typical)
  {
    assert Translate(i).context.Object?;
  }

  /**
   * The plan of an accepted intake: the single user first, the declared users too, nothing twice,
   * nothing beyond the declared context.
   */
  lemma IntakePlanned(i: ClientIntake)
    requires ValidIntake(i) && ValidAssumptions(i.assumptions) && ClassOf(i).Text? && ClassOf(i).s != []
    ensures var c := Translate(i);
            && Sound(c)
            && Plan(c) != [] && Plan(c)[0].name == Baseline && KeyOf(Plan(c)[0]) == NominalKey(c, 1)
            && (exists p :: p in Plan(c) && KeyOf(p) == NominalKey(c, i.traffic.fields.concurrent.n))
            && Distinct(Map(KeyOf, Plan(c)))
            && forall p :: p in Plan(c) ==> Fits(p, MaximumContext(c).n)
  {
    TranslationSound(i);
    var c := Translate(i);
    var n := i.traffic.fields.concurrent.n;
    PlanStartsWithBaseline(c);
    assert UserCounts(c)[0] == 1 && 1 in UserCounts(c);
    assert UserCounts(c)[|UserCounts(c)| - 1] == n && n in UserCounts(c);
    assert forall u :: u in UserCounts(c) ==> u >= 1;
    PlanCoversUsers(c, n);
    DeclaredPlanFits(c, MaximumContext(c).n);
  }

  /** Shared-context experiments are left out only when both probabilities are given as 0. */
  lemma ReuseByDefault(i: ClientIntake)
    requires ValidIntake(i)
    ensures var d := i.documents.fields;
            Reuse(Translate(i)) <==>
            !(!d.shared.Missing? && Amount(d.shared) == 0.0 && !d.repeated.Missing? && Amount(d.repeated) == 0.0)
    ensures var d, context := i.documents.fields, Translate(i).context.fields;
            && (if d.shared.Missing? then context.shared == 0.3 else context.shared == Amount(d.shared))
            && (if d.repeated.Missing? then context.repeated == 0.2 else context.repeated == Amount(d.repeated))
  {
  }
}
