// From intake to evidence: which records a translated contract can admit.
module IntakeChain {
  import opened Contracts
  import opened Intake
  import opened Wrappers

  import Recommend
  import WorkloadPlan

  ghost predicate Accepted(i: ClientIntake) {
    ValidIntake(i) && ValidAssumptions(i.assumptions) && ClassOf(i).Text? && ClassOf(i).s != []
  }

  /** What the engine reads of the contract translated from `i`. */
  ghost predicate TranslatedFrom(c: Recommend.Contract, i: ClientIntake)
    requires ValidIntake(i)
  {
    c.workload == Translate(i) && c.streaming && !c.quality.toolCalls
  }

  /** A record that passes every gate, for experiment `p`. */
  function GoodRecord(c: Recommend.Contract, p: Recommend.Experiment): Recommend.Record {
    var profile := Recommend.Profile(0, 0, 0, true, true, true, true, true, true, [0]);
    var protocol := Recommend.Protocol(true, 5, c.reasoning, Some(c.reasoning.Required?), 0);
    var comparison := Recommend.Comparison(c.quality, c.response, 64, true, true, true, true, 0);
    Recommend.Record(true, c.workload.id, profile, true, 0, 0, protocol, comparison, p, 0, 0, 0, 0, 0, [], [],
                     Recommend.Stored([], []))
  }

  /**
   * The contract of an accepted intake is sound, and exactly its own planned experiments can be
   * evidenced, provided reasoning is required or disabled. Left optional, as translation leaves
   * it when the intake does not say, no record is ever admitted.
   */
  lemma OwnExperimentsAdmitted(i: ClientIntake, c: Recommend.Contract, p: Recommend.Experiment)
    requires Accepted(i) && TranslatedFrom(c, i)
    ensures Sound(c.workload)
    ensures (exists e: Recommend.Record :: e.experiment == p && Recommend.Admissible(e, c))
            <==> p in WorkloadPlan.Plan(Translate(i)) && !c.reasoning.Optional?
  {
    TranslationSound(i);
    assert Recommend.Planned(c.workload) == WorkloadPlan.Plan(Translate(i));
    if p in WorkloadPlan.Plan(Translate(i)) && !c.reasoning.Optional? {
      var e := GoodRecord(c, p);
      assert Recommend.ShortId(0) == 0;
      assert e.experiment == p && Recommend.Admissible(e, c);
    }
  }
}
