// A measurement campaign that stops a source container, runs variants one at a time
// and puts the source back, whatever call fails on the way.
module Campaign {
  import opened Wrappers

  /** Containers as the Docker side sees them; `ready` is what a readiness check has established. */
  datatype Docker = Docker(sourceRunning: bool, sourceReady: bool, running: set<nat>, created: nat)

  /** What happens to one call: it works, raises an error, or is interrupted; a failing call may still have landed. */
  datatype Fate = Works | Fails(landed: bool) | Interrupted(landed: bool)

  datatype Exn = NoExn | Error | Interrupt

  /** The journal in memory and, once saved, on disk. */
  datatype Journal = Journal(evidence: nat, restored: bool, active: Option<nat>, error: bool, stopError: bool)

  // ----- calls -----

  datatype Call =
    | CheckSource | StopSource | StartSource
    | Create | StartVariant(v: nat) | CheckVariant(v: nat) | StopVariant(v: nat)
    | Measure | Save

  /** What a call does once it lands; starting a running container changes nothing. */
  function Perform(c: Call, d: Docker): Docker {
    match c
    case CheckSource => d.(sourceReady := true)
    case StopSource => d.(sourceRunning := false, sourceReady := false)
    case StartSource => if d.sourceRunning then d else d.(sourceRunning := true, sourceReady := false)
    case Create => d.(created := d.created + 1)
    case StartVariant(v) => d.(running := d.running + {v})
    case StopVariant(v) => d.(running := d.running - {v})
    case _ => d
  }

  /** A readiness check finds a stopped container not ready. */
  predicate Accepted(c: Call, d: Docker) {
    match c
    case CheckSource => d.sourceRunning
    case CheckVariant(v) => v in d.running
    case _ => true
  }

  predicate Lands(f: Fate) { f.Works? || f.landed }

  function Answer(c: Call, d: Docker, f: Fate): Exn {
    if f.Works? && Accepted(c, d) then NoExn else if f.Interrupted? then Interrupt else Error
  }

  function After(c: Call, d: Docker, f: Fate): Docker { if Accepted(c, d) && Lands(f) then Perform(c, d) else d }

  // ----- the campaign, call by call -----

  /**
   * The call a campaign of `m` variants is about to make. From `SaveError` on it is
   * past the protected part; `stopped` and `active` are what that part left behind.
   */
  datatype Pc =
    | First | Baseline | SaveBaseline | StopFirst
    | CreateNext(k: nat) | SaveActive(k: nat, v: nat) | StartNext(k: nat, v: nat) | CheckNext(k: nat, v: nat)
    | MeasureNext(k: nat, v: nat) | SaveNext(k: nat, v: nat) | StopNext(k: nat, v: nat)
    | SaveError(stopped: bool, active: Option<nat>)
    | LastStop(v: nat) | Restart | Recheck | SaveRestored
    | Done

  function CallAt(pc: Pc): Call {
    match pc
    case First => CheckSource
    case Baseline => Measure
    case StopFirst => StopSource
    case CreateNext(_) => Create
    case StartNext(_, v) => StartVariant(v)
    case CheckNext(_, v) => CheckVariant(v)
    case MeasureNext(_, _) => Measure
    case StopNext(_, v) => StopVariant(v)
    case LastStop(v) => StopVariant(v)
    case Restart => StartSource
    case Recheck => CheckSource
    case _ => Save
  }

  datatype State = State(pc: Pc, docker: Docker, journal: Journal, file: Option<Journal>, stopFailed: bool)

  /** What a save at `pc` writes. */
  function Written(pc: Pc, j: Journal): Journal {
    match pc
    case SaveError(_, _) => j.(error := true)
    case SaveRestored => j.(restored := true, active := None)
    case _ => j
  }

  function NextVariant(m: nat, k: nat): Pc { if k < m then CreateNext(k) else Restart }

  /** Into the final part. */
  function Finally(stopped: bool, active: Option<nat>): Pc {
    if active.Some? then LastStop(active.value) else if stopped then Restart else SaveRestored
  }

  /** Where control goes after the call at `pc` answered `x`; `id` is the container just created. */
  function Goes(m: nat, pc: Pc, x: Exn, id: nat): Pc {
    var ok := x == NoExn;
    match pc
    case First => if ok then Baseline else SaveError(false, None)
    case Baseline => if ok then SaveBaseline else SaveError(false, None)
    case SaveBaseline => if ok then StopFirst else SaveError(false, None)
    case StopFirst => if ok then NextVariant(m, 0) else SaveError(true, None)
    case CreateNext(k) => if ok then SaveActive(k, id) else SaveError(true, None)
    case SaveActive(k, v) => if ok then StartNext(k, v) else SaveError(true, Some(v))
    case StartNext(k, v) => if ok then CheckNext(k, v) else SaveError(true, Some(v))
    case CheckNext(k, v) => if ok then MeasureNext(k, v) else SaveError(true, Some(v))
    case MeasureNext(k, v) => if ok then SaveNext(k, v) else SaveError(true, Some(v))
    case SaveNext(k, v) => if ok then StopNext(k, v) else SaveError(true, Some(v))
    case StopNext(k, v) => if ok then NextVariant(m, k + 1) else SaveError(true, Some(v))
    case SaveError(stopped, active) => Finally(stopped, active)
    case LastStop(_) => if x == Interrupt then Done else Restart
    case Restart => if ok then Recheck else Done
    case Recheck => if ok then SaveRestored else Done
    case _ => Done
  }

  /** What the code notes in the journal after that call. */
  function Noted(pc: Pc, x: Exn, id: nat, j: Journal): Journal {
    match pc
    case CreateNext(_) => if x == NoExn then j.(active := Some(id)) else j
    case Baseline => if x == NoExn then j.(evidence := j.evidence + 1) else j
    case MeasureNext(_, _) => if x == NoExn then j.(evidence := j.evidence + 1) else j
    case LastStop(_) => if x == Error then j.(stopError := true) else j
    case _ => Written(pc, j)
  }

  predicate StopsVariant(pc: Pc) { pc.StopNext? || pc.LastStop? }

  function Step(m: nat, s: State, f: Fate): State {
    var c := CallAt(s.pc);
    var x := Answer(c, s.docker, f);
    State(Goes(m, s.pc, x, s.docker.created), After(c, s.docker, f), Noted(s.pc, x, s.docker.created, s.journal),
          if c.Save? && Lands(f) then Some(Written(s.pc, s.journal)) else s.file,
          s.stopFailed || (StopsVariant(s.pc) && x != NoExn))
  }

  function Left(m: nat, k: nat): nat { if k < m then 7 * (m - k) else 0 }

  function Rank(m: nat, pc: Pc): nat {
    match pc
    case First => 7 * m + 17
    case Baseline => 7 * m + 16
    case SaveBaseline => 7 * m + 15
    case StopFirst => 7 * m + 14
    case CreateNext(k) => Left(m, k) + 13
    case SaveActive(k, _) => Left(m, k) + 12
    case StartNext(k, _) => Left(m, k) + 11
    case CheckNext(k, _) => Left(m, k) + 10
    case MeasureNext(k, _) => Left(m, k) + 9
    case SaveNext(k, _) => Left(m, k) + 8
    case StopNext(k, _) => Left(m, k) + 7
    case SaveError(_, _) => 5
    case LastStop(_) => 4
    case Restart => 3
    case Recheck => 2
    case SaveRestored => 1
    case Done => 0
  }

  lemma RankFalls(m: nat, pc: Pc, x: Exn, id: nat)
    requires pc != Done
    ensures Rank(m, Goes(m, pc, x, id)) < Rank(m, pc)
  {
  }

  /** The state when the campaign is over; call number `n` meets `fate(n)`. */
  function Outcome(m: nat, s: State, fate: nat -> Fate, n: nat): State
    decreases Rank(m, s.pc)
  {
    if s.pc.Done? then s
    else
      RankFalls(m, s.pc, Answer(CallAt(s.pc), s.docker, fate(n)), s.docker.created);
      Outcome(m, Step(m, s, fate(n)), fate, n + 1)
  }

  /** The state after `n` calls, or at the end. */
  function Moment(m: nat, s: State, fate: nat -> Fate, n: nat): State {
    if n == 0 then s else Onward(m, Moment(m, s, fate, n - 1), fate(n - 1))
  }

  predicate Begins(d: Docker) { d.sourceRunning && d.running == {} }

  function Start(d: Docker): State { State(First, d, Journal(0, false, None, false, false), None, false) }

  // ----- safety at every moment -----

  predicate AtMostOne(vs: set<nat>) { forall v, w :: v in vs && w in vs ==> v == w }

  /** At most one variant runs, and none beside the source unless stopping one has failed. */
  predicate Apart(s: State) {
    AtMostOne(s.docker.running) && (s.docker.sourceRunning && s.docker.running != {} ==> s.stopFailed)
  }

  predicate Protected(pc: Pc) {
    pc.First? || pc.Baseline? || pc.SaveBaseline? || pc.StopFirst?
    || (pc.SaveError? && !pc.stopped && pc.active == None)
  }

  /** The variant that may be running before the call at `pc`. */
  function MayRun(pc: Pc): set<nat> {
    match pc
    case CheckNext(_, v) => {v}
    case MeasureNext(_, v) => {v}
    case SaveNext(_, v) => {v}
    case StopNext(_, v) => {v}
    case SaveError(_, active) => if active.Some? then {active.value} else {}
    case LastStop(v) => {v}
    case _ => {}
  }

  /** From creating a variant to stopping it. */
  predicate InVariant(pc: Pc) {
    || pc.CreateNext? || pc.SaveActive? || pc.StartNext? || pc.CheckNext?
    || pc.MeasureNext? || pc.SaveNext? || pc.StopNext?
  }

  predicate Closing(pc: Pc) { pc.Restart? || pc.Recheck? || pc.SaveRestored? || pc.Done? }

  /** Where each part of the campaign stands. */
  predicate Sound(s: State) {
    var d := s.docker;
    && (Protected(s.pc) ==> d.sourceRunning && d.running == {})
    && (s.pc.SaveError? && !s.pc.stopped ==> s.pc.active == None)
    && (s.pc.SaveError? && s.pc.active.Some? ==> !d.sourceRunning)
    && (InVariant(s.pc) || s.pc.LastStop? ==> !d.sourceRunning)
    && (d.running <= MayRun(s.pc) || (Closing(s.pc) && s.stopFailed && AtMostOne(d.running)))
    && (s.pc.SaveRestored? ==> d.sourceRunning)
  }

  lemma SoundApart(s: State)
    requires Sound(s)
    ensures Apart(s)
  {
  }

  lemma EarlySound(m: nat, s: State, f: Fate)
    requires Sound(s) && (Protected(s.pc) || s.pc.SaveError?)
    ensures Sound(Step(m, s, f))
  {
  }

  lemma StartSound(m: nat, s: State, f: Fate)
    requires Sound(s) && s.pc.StartNext?
    ensures Sound(Step(m, s, f))
  {
    assert s.docker.running == {};
  }

  lemma StopSound(m: nat, s: State, f: Fate)
    requires Sound(s) && s.pc.StopNext?
    ensures Sound(Step(m, s, f))
  {
    assert s.docker.running - {s.pc.v} == {};
  }

  lemma WaitSound(m: nat, s: State, f: Fate)
    requires Sound(s) && (s.pc.CheckNext? || s.pc.MeasureNext? || s.pc.SaveNext?)
    ensures Sound(Step(m, s, f))
  {
  }

  lemma CreateSound(m: nat, s: State, f: Fate)
    requires Sound(s) && (s.pc.CreateNext? || s.pc.SaveActive?)
    ensures Sound(Step(m, s, f))
  {
  }

  lemma LastStopSound(m: nat, s: State, f: Fate)
    requires Sound(s) && s.pc.LastStop?
    ensures Sound(Step(m, s, f))
  {
    assert s.docker.running - {s.pc.v} == {};
  }

  lemma ClosingSound(m: nat, s: State, f: Fate)
    requires Sound(s) && Closing(s.pc) && s.pc != Done
    ensures Sound(Step(m, s, f))
  {
  }

  lemma StepSound(m: nat, s: State, f: Fate)
    requires Sound(s) && s.pc != Done
    ensures Sound(Step(m, s, f))
  {
    match s.pc {
      case StartNext(_, _) => StartSound(m, s, f);
      case StopNext(_, _) => StopSound(m, s, f);
      case CheckNext(_, _) => WaitSound(m, s, f);
      case MeasureNext(_, _) => WaitSound(m, s, f);
      case SaveNext(_, _) => WaitSound(m, s, f);
      case CreateNext(_) => CreateSound(m, s, f);
      case SaveActive(_, _) => CreateSound(m, s, f);
      case LastStop(_) => LastStopSound(m, s, f);
      case _ => if Closing(s.pc) { ClosingSound(m, s, f); } else { EarlySound(m, s, f); }
    }
  }

  function Onward(m: nat, s: State, f: Fate): State { if s.pc.Done? then s else Step(m, s, f) }

  lemma OnwardSound(m: nat, s: State, f: Fate)
    requires Sound(s)
    ensures Sound(Onward(m, s, f))
  {
    if s.pc != Done {
      StepSound(m, s, f);
    }
  }

  lemma {:induction false} EveryMomentSound(m: nat, s: State, fate: nat -> Fate, n: nat)
    requires Sound(s)
    ensures Sound(Moment(m, s, fate, n))
  {
    if n > 0 {
      EveryMomentSound(m, s, fate, n - 1);
      OnwardSound(m, Moment(m, s, fate, n - 1), fate(n - 1));
    }
  }

  /** Whatever the calls do, at every moment variants do not overlap, nor run beside the source unless a stop failed. */
  lemma {:induction false} EveryMomentApart(m: nat, d: Docker, fate: nat -> Fate, n: nat)
    requires Begins(d)
    ensures Sound(Moment(m, Start(d), fate, n)) && Apart(Moment(m, Start(d), fate, n))
  {
    EveryMomentSound(m, Start(d), fate, n);
    SoundApart(Moment(m, Start(d), fate, n));
  }

  // ----- what the file says of a running variant -----

  /** Every variant in `vs` is the one the journal calls active. */
  predicate Names(j: Journal, vs: set<nat>) { j.active.Some? && vs == {j.active.value} }

  /**
   * A variant is named in the file before it may run and for as long as it does; only a
   * campaign that also noted its failed stop may end with the name taken out again.
   */
  predicate Named(s: State) {
    && (s.docker.running != {} ==>
          && s.file.Some?
          && (Names(s.file.value, s.docker.running)
              || (s.pc.Done? && s.file.value.restored && s.file.value.stopError))
          && (s.pc != Done ==> s.journal.active == s.file.value.active)
          && (Closing(s.pc) && s.pc != Done ==> s.journal.stopError))
    && (s.pc.SaveActive? ==> s.journal.active == Some(s.pc.v))
    && (s.pc.StartNext? ==> s.journal.active == Some(s.pc.v) && s.file.Some? && s.file.value.active == Some(s.pc.v))
  }

  lemma StartNamed(m: nat, s: State, f: Fate)
    requires Sound(s) && Named(s) && s.pc.StartNext?
    ensures Named(Step(m, s, f))
  {
    assert s.docker.running + {s.pc.v} == {s.pc.v};
  }

  lemma StopNamed(m: nat, s: State, f: Fate)
    requires Sound(s) && Named(s) && StopsVariant(s.pc)
    ensures Named(Step(m, s, f))
  {
    assert s.docker.running - {s.pc.v} == {};
  }

  lemma OtherNamed(m: nat, s: State, f: Fate)
    requires Sound(s) && Named(s) && !s.pc.StartNext? && !StopsVariant(s.pc) && s.pc != Done
    ensures Named(Step(m, s, f))
  {
  }

  lemma OnwardNamed(m: nat, s: State, f: Fate)
    requires Sound(s) && Named(s)
    ensures Named(Onward(m, s, f))
  {
    match s.pc {
      case Done =>
      case StopNext(_, _) => StopNamed(m, s, f);
      case LastStop(_) => StopNamed(m, s, f);
      case StartNext(_, _) => StartNamed(m, s, f);
      case _ => OtherNamed(m, s, f);
    }
  }

  /** Whatever the calls do, the file names the variant that runs at every moment. */
  lemma {:induction false} EveryMomentNamed(m: nat, d: Docker, fate: nat -> Fate, n: nat)
    requires Begins(d)
    ensures Named(Moment(m, Start(d), fate, n))
  {
    if n > 0 {
      EveryMomentNamed(m, d, fate, n - 1);
      EveryMomentSound(m, Start(d), fate, n - 1);
      OnwardNamed(m, Moment(m, Start(d), fate, n - 1), fate(n - 1));
    }
  }

  /** Before anything is stopped, created or started, every measurement that counts is in the file. */
  predicate Recorded(s: State) {
    s.pc.StopFirst? || (InVariant(s.pc) && !s.pc.SaveNext?) ==>
      s.file.Some? && s.file.value.evidence == s.journal.evidence
  }

  lemma OnwardRecorded(m: nat, s: State, f: Fate)
    requires Recorded(s)
    ensures Recorded(Onward(m, s, f))
  {
  }

  lemma {:induction false} EveryMomentRecorded(m: nat, d: Docker, fate: nat -> Fate, n: nat)
    ensures Recorded(Moment(m, Start(d), fate, n))
  {
    if n > 0 {
      EveryMomentRecorded(m, d, fate, n - 1);
      OnwardRecorded(m, Moment(m, Start(d), fate, n - 1), fate(n - 1));
    }
  }

  // ----- the end of a campaign -----

  lemma {:induction false} OutcomeFrom(m: nat, s: State, fate: nat -> Fate, n: nat)
    ensures Outcome(m, s, fate, 0) == Outcome(m, Moment(m, s, fate, n), fate, n)
  {
    if n > 0 {
      OutcomeFrom(m, s, fate, n - 1);
    }
  }

  lemma {:induction false} MomentsRunOut(m: nat, s: State, fate: nat -> Fate, n: nat)
    ensures Moment(m, s, fate, n).pc.Done? || Rank(m, Moment(m, s, fate, n).pc) + n <= Rank(m, s.pc)
  {
    if n > 0 {
      MomentsRunOut(m, s, fate, n - 1);
      var before := Moment(m, s, fate, n - 1);
      if before.pc != Done {
        RankFalls(m, before.pc, Answer(CallAt(before.pc), before.docker, fate(n - 1)), before.docker.created);
      }
    }
  }

  /** The end is one of the moments, so what holds at every moment holds there. */
  lemma OutcomeIsMoment(m: nat, s: State, fate: nat -> Fate)
    ensures Outcome(m, s, fate, 0).pc == Done
    ensures Outcome(m, s, fate, 0) == Moment(m, s, fate, Rank(m, s.pc))
  {
    var n := Rank(m, s.pc);
    MomentsRunOut(m, s, fate, n);
    RankZero(m, Moment(m, s, fate, n).pc);
    OutcomeFrom(m, s, fate, n);
    OutcomeOfDone(m, Moment(m, s, fate, n), fate, n);
  }

  lemma RankZero(m: nat, pc: Pc)
    requires Rank(m, pc) == 0
    ensures pc == Done
  {
  }

  lemma OutcomeOfDone(m: nat, s: State, fate: nat -> Fate, n: nat)
    requires s.pc == Done
    ensures Outcome(m, s, fate, n) == s
  {
  }

  predicate InFinally(pc: Pc) { pc.LastStop? || Closing(pc) }

  /** The state in which the final part is entered, and the number of the call it makes first. */
  function Entry(m: nat, s: State, fate: nat -> Fate, n: nat): (State, nat)
    decreases Rank(m, s.pc)
  {
    if InFinally(s.pc) then (s, n)
    else
      RankFalls(m, s.pc, Answer(CallAt(s.pc), s.docker, fate(n)), s.docker.created);
      Entry(m, Step(m, s, fate(n)), fate, n + 1)
  }

  /** Nothing claims yet that the source was restored. */
  predicate Unclaimed(s: State) { !s.journal.restored && (s.file.Some? ==> !s.file.value.restored) }

  predicate FinalPart(pc: Pc) { pc.LastStop? || pc.Restart? || pc.SaveRestored? }

  lemma {:induction false} EntryLeads(m: nat, s: State, fate: nat -> Fate, n: nat)
    requires Sound(s) && Unclaimed(s) && (FinalPart(s.pc) || !InFinally(s.pc))
    ensures var (e, k) := Entry(m, s, fate, n);
            && FinalPart(e.pc) && Sound(e) && Unclaimed(e)
            && Outcome(m, s, fate, n) == Outcome(m, e, fate, k)
    decreases Rank(m, s.pc)
  {
    if !InFinally(s.pc) {
      RankFalls(m, s.pc, Answer(CallAt(s.pc), s.docker, fate(n)), s.docker.created);
      StepSound(m, s, fate(n));
      EntryLeads(m, Step(m, s, fate(n)), fate, n + 1);
    }
  }

  lemma OneCall(m: nat, s: State, fate: nat -> Fate, n: nat)
    requires s.pc != Done
    ensures Outcome(m, s, fate, n) == Outcome(m, Step(m, s, fate(n)), fate, n + 1)
  {
    RankFalls(m, s.pc, Answer(CallAt(s.pc), s.docker, fate(n)), s.docker.created);
  }

  /** The fates, from call `n` on, under which a stopped source comes up and is found ready. */
  predicate BringsBack(pc: Pc, fate: nat -> Fate, n: nat) {
    match pc
    case LastStop(_) => !fate(n).Interrupted? && fate(n + 1).Works? && Lands(fate(n + 2))
    case Restart => fate(n).Works? && Lands(fate(n + 1))
    case _ => false
  }

  /** ... and those under which the file comes to say so. */
  predicate Claims(pc: Pc, fate: nat -> Fate, n: nat) {
    match pc
    case LastStop(_) => !fate(n).Interrupted? && fate(n + 1).Works? && fate(n + 2).Works? && Lands(fate(n + 3))
    case Restart => fate(n).Works? && fate(n + 1).Works? && Lands(fate(n + 2))
    case _ => Lands(fate(n))
  }

  predicate SourceUp(s: State) { s.docker.sourceRunning && s.docker.sourceReady }

  predicate SaysRestored(s: State) { s.file.Some? && s.file.value.restored }

  /** What the rest of a campaign makes of a state. */
  ghost predicate EndsAs(s: State, end: State, up: bool, claimed: bool) {
    && (SourceUp(end) <==> SourceUp(s) || up) && (SaysRestored(end) <==> claimed)
    && (claimed ==> end.docker.sourceRunning)
  }

  lemma FromSave(m: nat, s: State, fate: nat -> Fate, n: nat)
    requires s.pc == SaveRestored && Unclaimed(s) && s.docker.sourceRunning
    ensures EndsAs(s, Outcome(m, s, fate, n), false, Claims(SaveRestored, fate, n))
  {
    OneCall(m, s, fate, n);
  }

  lemma FromRecheck(m: nat, s: State, fate: nat -> Fate, n: nat)
    requires s.pc == Recheck && Unclaimed(s) && s.docker.sourceRunning
    ensures EndsAs(s, Outcome(m, s, fate, n), Lands(fate(n)), fate(n).Works? && Lands(fate(n + 1)))
  {
    OneCall(m, s, fate, n);
    var saved := Step(m, s, fate(n));
    if saved.pc == SaveRestored {
      FromSave(m, saved, fate, n + 1);
    }
  }

  lemma FromRestart(m: nat, s: State, fate: nat -> Fate, n: nat)
    requires s.pc == Restart && Unclaimed(s)
    ensures EndsAs(s, Outcome(m, s, fate, n), BringsBack(Restart, fate, n), Claims(Restart, fate, n))
  {
    OneCall(m, s, fate, n);
    var checked := Step(m, s, fate(n));
    if checked.pc == Recheck {
      FromRecheck(m, checked, fate, n + 1);
    }
  }

  lemma FromLastStop(m: nat, s: State, fate: nat -> Fate, n: nat)
    requires s.pc.LastStop? && Sound(s) && Unclaimed(s)
    ensures EndsAs(s, Outcome(m, s, fate, n), BringsBack(s.pc, fate, n), Claims(s.pc, fate, n))
  {
    OneCall(m, s, fate, n);
    var stopped := Step(m, s, fate(n));
    if stopped.pc == Restart {
      FromRestart(m, stopped, fate, n + 1);
    }
  }

  lemma FromEntry(m: nat, e: State, fate: nat -> Fate, k: nat)
    requires Sound(e) && Unclaimed(e) && FinalPart(e.pc)
    ensures EndsAs(e, Outcome(m, e, fate, k), BringsBack(e.pc, fate, k), Claims(e.pc, fate, k))
  {
    match e.pc {
      case LastStop(_) => FromLastStop(m, e, fate, k);
      case Restart => FromRestart(m, e, fate, k);
      case _ => FromSave(m, e, fate, k);
    }
  }

  // ----- when the source is restored -----

  /** The first three calls work, so the source is asked to stop. */
  predicate AsksToStop(fate: nat -> Fate) { fate(0).Works? && fate(1).Works? && fate(2).Works? }

  predicate AfterStop(pc: Pc) { InVariant(pc) || pc.LastStop? || pc.Restart? || (pc.SaveError? && pc.stopped) }

  lemma OneEntry(m: nat, s: State, fate: nat -> Fate, n: nat)
    requires !InFinally(s.pc)
    ensures Entry(m, s, fate, n) == Entry(m, Step(m, s, fate(n)), fate, n + 1)
  {
    RankFalls(m, s.pc, Answer(CallAt(s.pc), s.docker, fate(n)), s.docker.created);
  }

  /** A source that is down stays down up to the final part, which restarts it. */
  lemma {:induction false} DownUntilFinally(m: nat, s: State, fate: nat -> Fate, n: nat)
    requires Sound(s) && AfterStop(s.pc) && !s.docker.sourceRunning
    ensures var e := Entry(m, s, fate, n).0; e.pc != SaveRestored && !e.docker.sourceRunning
    decreases Rank(m, s.pc)
  {
    if !InFinally(s.pc) {
      RankFalls(m, s.pc, Answer(CallAt(s.pc), s.docker, fate(n)), s.docker.created);
      StepSound(m, s, fate(n));
      DownUntilFinally(m, Step(m, s, fate(n)), fate, n + 1);
    }
  }

  /** A campaign that breaks off before it asks to stop enters the final part with nothing to restart. */
  lemma EntryUnasked(m: nat, s: State, fate: nat -> Fate, n: nat)
    requires s.pc == SaveError(false, None)
    ensures var e := Entry(m, s, fate, n).0; e.pc == SaveRestored && e.docker == s.docker
  {
    OneEntry(m, s, fate, n);
  }

  lemma EntryFromStop(m: nat, s: State, fate: nat -> Fate, n: nat)
    requires s.pc == StopFirst && Sound(s) && SourceUp(s)
    ensures var e := Entry(m, s, fate, n).0; e.pc != SaveRestored && (SourceUp(e) <==> !Lands(fate(n)))
  {
    OneEntry(m, s, fate, n);
    var after := Step(m, s, fate(n));
    StepSound(m, s, fate(n));
    if Lands(fate(n)) {
      DownUntilFinally(m, after, fate, n + 1);
    } else {
      OneEntry(m, after, fate, n + 1);
    }
  }

  lemma EntryFromBaseline(m: nat, s: State, fate: nat -> Fate, n: nat)
    requires s.pc == Baseline && Sound(s) && SourceUp(s)
    ensures var e := Entry(m, s, fate, n).0;
            if fate(n).Works? && fate(n + 1).Works? then e.pc != SaveRestored && (SourceUp(e) <==> !Lands(fate(n + 2)))
            else e.pc == SaveRestored && SourceUp(e)
  {
    OneEntry(m, s, fate, n);
    var measured := Step(m, s, fate(n));
    StepSound(m, s, fate(n));
    if measured.pc == SaveBaseline {
      OneEntry(m, measured, fate, n + 1);
      StepSound(m, measured, fate(n + 1));
      var saved := Step(m, measured, fate(n + 1));
      if saved.pc == StopFirst {
        EntryFromStop(m, saved, fate, n + 2);
      } else {
        EntryUnasked(m, saved, fate, n + 2);
      }
    } else {
      EntryUnasked(m, measured, fate, n + 1);
    }
  }

  lemma EntryFromStart(m: nat, d: Docker, fate: nat -> Fate)
    requires Begins(d)
    ensures var e := Entry(m, Start(d), fate, 0).0;
            && (e.pc == SaveRestored <==> !AsksToStop(fate))
            && (SourceUp(e) <==> if AsksToStop(fate) then !Lands(fate(3)) else d.sourceReady || Lands(fate(0)))
  {
    OneEntry(m, Start(d), fate, 0);
    StepSound(m, Start(d), fate(0));
    var checked := Step(m, Start(d), fate(0));
    if checked.pc == Baseline {
      EntryFromBaseline(m, checked, fate, 1);
    } else {
      EntryUnasked(m, checked, fate, 1);
    }
  }

  /**
   * For every campaign and all fates of its calls: the source is up and ready at the end
   * exactly if it was asked to stop and the request never landed, or was asked and the final
   * part brings it back, or was not asked and was ready or found so; the file says restored
   * exactly if the final part comes to say so, and then the source runs.
   */
  lemma RestoredExactly(m: nat, d: Docker, fate: nat -> Fate)
    requires Begins(d)
    ensures var (e, k) := Entry(m, Start(d), fate, 0);
            var end := Outcome(m, Start(d), fate, 0);
            && FinalPart(e.pc) && (e.pc == SaveRestored <==> !AsksToStop(fate))
            && (SourceUp(end) <==>
                  if AsksToStop(fate) then !Lands(fate(3)) || BringsBack(e.pc, fate, k)
                  else d.sourceReady || Lands(fate(0)))
            && (SaysRestored(end) <==> Claims(e.pc, fate, k))
            && (SaysRestored(end) ==> end.docker.sourceRunning)
  {
    EntryLeads(m, Start(d), fate, 0);
    EntryFromStart(m, d, fate);
    var (e, k) := Entry(m, Start(d), fate, 0);
    FromEntry(m, e, fate, k);
  }

  /** At the end, too, variants are apart, and none runs unless stopping it has failed. */
  lemma EndsApart(m: nat, d: Docker, fate: nat -> Fate)
    requires Begins(d)
    ensures var end := Outcome(m, Start(d), fate, 0);
            end.pc == Done && Apart(end) && (end.docker.running == {} || end.stopFailed)
  {
    OutcomeIsMoment(m, Start(d), fate);
    EveryMomentApart(m, d, fate, Rank(m, First));
  }

  // ----- a call that fails ends the measuring -----

  /** The protected part: everything up to the first failure or to the last variant. */
  predicate Trying(pc: Pc) { pc.First? || pc.Baseline? || pc.SaveBaseline? || pc.StopFirst? || InVariant(pc) }

  /** The call by which `s` goes on fails, and belongs to the protected part. */
  predicate Breaks(s: State, f: Fate) { Trying(s.pc) && Answer(CallAt(s.pc), s.docker, f) != NoExn }

  /** A call that measures or prepares measuring. */
  predicate Measures(c: Call) { c.Measure? || c.Create? || c.StartVariant? || c.CheckVariant? || c.StopSource? }

  /** Whether the call by which `s` goes on is a measurement that works. */
  predicate MeasuresNow(s: State, f: Fate) {
    s.pc != Done && CallAt(s.pc) == Measure && Answer(Measure, s.docker, f) == NoExn
  }

  /** One of the first `n` calls has. */
  predicate Broke(m: nat, s: State, fate: nat -> Fate, n: nat) {
    n > 0 && (Broke(m, s, fate, n - 1) || Breaks(Moment(m, s, fate, n - 1), fate(n - 1)))
  }

  /** How many of the first `n` calls are measurements that work. */
  function Measured(m: nat, s: State, fate: nat -> Fate, n: nat): nat {
    if n == 0 then 0
    else Measured(m, s, fate, n - 1) + if MeasuresNow(Moment(m, s, fate, n - 1), fate(n - 1)) then 1 else 0
  }

  predicate SaysError(s: State) { s.file.Some? && s.file.value.error }

  predicate SavesNow(s: State, f: Fate) { s.pc != Done && CallAt(s.pc) == Save && Lands(f) }

  /** One of the first `n` calls is a save that lands after such a failure. */
  predicate ErrorSaved(m: nat, s: State, fate: nat -> Fate, n: nat) {
    n > 0 && (ErrorSaved(m, s, fate, n - 1)
              || (Broke(m, s, fate, n - 1) && SavesNow(Moment(m, s, fate, n - 1), fate(n - 1))))
  }

  /** After a failure: about to note it, or in the final part with the error noted. */
  predicate Failing(s: State) { s.pc.SaveError? || (InFinally(s.pc) && s.journal.error) }

  /** No failure yet. */
  predicate Calm(s: State) { !s.journal.error && (Trying(s.pc) || Closing(s.pc)) }

  lemma GoesOn(m: nat, s: State, f: Fate)
    requires Calm(s) || Failing(s)
    ensures if Failing(s) || Breaks(s, f) then Failing(Onward(m, s, f)) else Calm(Onward(m, s, f))
  {
  }

  lemma {:induction false} FailingOnceBroke(m: nat, s: State, fate: nat -> Fate, n: nat)
    requires Calm(s)
    ensures if Broke(m, s, fate, n) then Failing(Moment(m, s, fate, n)) else Calm(Moment(m, s, fate, n))
  {
    if n > 0 {
      FailingOnceBroke(m, s, fate, n - 1);
      GoesOn(m, Moment(m, s, fate, n - 1), fate(n - 1));
    }
  }

  lemma FileGoesOn(m: nat, s: State, f: Fate)
    requires if Failing(s) then true else Calm(s) && !SaysError(s)
    ensures SaysError(Onward(m, s, f)) <==>
            SaysError(s) || (Failing(s) && SavesNow(s, f))
  {
  }

  lemma {:induction false} FileSaysError(m: nat, s: State, fate: nat -> Fate, n: nat)
    requires Calm(s) && !SaysError(s)
    ensures SaysError(Moment(m, s, fate, n)) <==> ErrorSaved(m, s, fate, n)
    ensures ErrorSaved(m, s, fate, n) ==> Broke(m, s, fate, n)
  {
    if n > 0 {
      FileSaysError(m, s, fate, n - 1);
      FailingOnceBroke(m, s, fate, n - 1);
      FileGoesOn(m, Moment(m, s, fate, n - 1), fate(n - 1));
    }
  }

  lemma {:induction false} EvidenceIsMeasured(m: nat, s: State, fate: nat -> Fate, n: nat)
    ensures Moment(m, s, fate, n).journal.evidence == s.journal.evidence + Measured(m, s, fate, n)
  {
    if n > 0 {
      EvidenceIsMeasured(m, s, fate, n - 1);
      EvidenceNext(m, Moment(m, s, fate, n - 1), fate(n - 1));
    }
  }

  lemma EvidenceNext(m: nat, s: State, f: Fate)
    ensures Onward(m, s, f).journal.evidence == s.journal.evidence + if MeasuresNow(s, f) then 1 else 0
  {
  }

  lemma FailingMeasuresNothing(s: State)
    requires Failing(s)
    ensures !Measures(CallAt(s.pc))
  {
  }

  /**
   * For all fates: once a call of the protected part fails or is interrupted, no later call
   * measures or prepares measuring; the error is journalled exactly if there was such a call,
   * and is in the file exactly if a later save landed; the evidence counts the measurements
   * that worked.
   */
  lemma FailureEndsMeasuring(m: nat, d: Docker, fate: nat -> Fate)
    ensures var s, calls, end := Start(d), Rank(m, First), Outcome(m, Start(d), fate, 0);
            && (forall n: nat :: Broke(m, s, fate, n) ==> !Measures(CallAt(Moment(m, s, fate, n).pc)))
            && (end.journal.error <==> Broke(m, s, fate, calls))
            && (SaysError(end) <==> ErrorSaved(m, s, fate, calls))
            && end.journal.evidence == Measured(m, s, fate, calls)
  {
    var s, calls := Start(d), Rank(m, First);
    OutcomeIsMoment(m, s, fate);
    FailingOnceBroke(m, s, fate, calls);
    FileSaysError(m, s, fate, calls);
    EvidenceIsMeasured(m, s, fate, calls);
    forall n: nat | Broke(m, s, fate, n) ensures !Measures(CallAt(Moment(m, s, fate, n).pc)) {
      FailingOnceBroke(m, s, fate, n);
      FailingMeasuresNothing(Moment(m, s, fate, n));
    }
  }

  // ----- inputs on which stronger readings fail -----

  /** A first readiness check that fails leaves a file that says restored over a source never seen ready. */
  lemma FirstCheckFails(m: nat, d: Docker, fate: nat -> Fate)
    requires Begins(d) && !d.sourceReady && fate(0) == Fails(false) && fate(2).Works?
    ensures var end := Outcome(m, Start(d), fate, 0);
            SaysRestored(end) && end.docker.sourceRunning && !end.docker.sourceReady
  {
    OneCall(m, Start(d), fate, 0);
    var failed := Step(m, Start(d), fate(0));
    OneCall(m, failed, fate, 1);
    var saved := Step(m, failed, fate(1));
    OneCall(m, saved, fate, 2);
  }

  /** A variant fails to start (call 6), and stopping it (call 8) is interrupted; every other call works. */
  function InterruptedStop(n: nat): Fate {
    if n == 6 then Fails(false) else if n == 8 then Interrupted(false) else Works
  }

  /** Each state leads to the next, the first by call `n`. */
  ghost predicate Path(m: nat, states: seq<State>, fate: nat -> Fate, n: nat) {
    forall i :: 0 <= i < |states| - 1 ==> states[i].pc != Done && Step(m, states[i], fate(n + i)) == states[i + 1]
  }

  predicate SameNext<S, R(==)>(f: (S, nat) -> R, states: seq<S>, n: nat, i: nat) {
    i + 1 < |states| ==> f(states[i], n + i) == f(states[i + 1], n + i + 1)
  }

  lemma {:induction false} Chain<S, R>(f: (S, nat) -> R, states: seq<S>, n: nat, k: nat)
    requires k < |states| && forall i: nat :: i < k ==> SameNext(f, states, n, i)
    ensures f(states[0], n) == f(states[k], n + k)
  {
    if k > 0 {
      Chain(f, states, n, k - 1);
      assert SameNext(f, states, n, k - 1);
    }
  }

  lemma PathCall(m: nat, states: seq<State>, fate: nat -> Fate, n: nat, i: nat)
    requires i + 1 < |states| && Path(m, states, fate, n)
    ensures Outcome(m, states[i], fate, n + i) == Outcome(m, states[i + 1], fate, n + i + 1)
  {
    OneCall(m, states[i], fate, n + i);
  }

  function EndFrom(m: nat, fate: nat -> Fate): (State, nat) -> State { (s: State, k: nat) => Outcome(m, s, fate, k) }

  lemma PathCalls(m: nat, states: seq<State>, fate: nat -> Fate, n: nat)
    requires Path(m, states, fate, n)
    ensures forall i: nat :: i < |states| - 1 ==> SameNext(EndFrom(m, fate), states, n, i)
  {
    forall i: nat | i < |states| - 1 ensures SameNext(EndFrom(m, fate), states, n, i) {
      PathCall(m, states, fate, n, i);
    }
  }

  lemma PathOutcome(m: nat, states: seq<State>, fate: nat -> Fate, n: nat)
    requires states != [] && Path(m, states, fate, n)
    ensures Outcome(m, states[0], fate, n) == Outcome(m, states[|states| - 1], fate, n + |states| - 1)
  {
    PathCalls(m, states, fate, n);
    Chain(EndFrom(m, fate), states, n, |states| - 1);
  }

  /** That run, before each of its nine calls and at its end. */
  function InterruptedRun(d: Docker): seq<State> {
    var id, none, once := d.created, Start(d).journal, Start(d).journal.(evidence := 1);
    var ready, down := d.(sourceReady := true), d.(sourceReady := false, sourceRunning := false);
    var made, noted := down.(created := id + 1), once.(active := Some(id));
    var failed := noted.(error := true);
    [Start(d), State(Baseline, ready, none, None, false), State(SaveBaseline, ready, once, None, false),
     State(StopFirst, ready, once, Some(once), false), State(CreateNext(0), down, once, Some(once), false),
     State(SaveActive(0, id), made, noted, Some(once), false), State(StartNext(0, id), made, noted, Some(noted), false),
     State(SaveError(true, Some(id)), made, noted, Some(noted), false),
     State(LastStop(id), made, failed, Some(failed), false),
     State(Done, made, failed, Some(failed), true)]
  }

  lemma InterruptedRunIsPath(m: nat, d: Docker)
    requires Begins(d) && m > 0
    ensures Path(m, InterruptedRun(d), InterruptedStop, 0)
  {
    var p := InterruptedRun(d);
    assert Step(m, p[0], Works) == p[1];
    assert Step(m, p[1], Works) == p[2];
    assert Step(m, p[2], Works) == p[3];
    assert Step(m, p[3], Works) == p[4];
    assert Step(m, p[4], Works) == p[5];
    assert Step(m, p[5], Works) == p[6];
    assert Step(m, p[6], Fails(false)) == p[7];
    assert Step(m, p[7], Works) == p[8];
    assert Step(m, p[8], Interrupted(false)) == p[9];
  }

  /**
   * So the source is left down, though neither its restart nor a check of it has failed: the
   * calls after the first check are none of these.
   */
  lemma InterruptSkipsRestart(m: nat, d: Docker)
    requires Begins(d) && m > 0
    ensures var run := InterruptedRun(d);
            && Path(m, run, InterruptedStop, 0) && run[0] == Start(d)
            && Outcome(m, Start(d), InterruptedStop, 0) == run[9]
            && (forall n :: 0 < n < 9 ==> CallAt(run[n].pc) != StartSource && CallAt(run[n].pc) != CheckSource)
            && !run[9].docker.sourceRunning
  {
    InterruptedRunIsPath(m, d);
    PathOutcome(m, InterruptedRun(d), InterruptedStop, 0);
  }

  // ----- when every call works -----

  ghost predicate AllWork(fate: nat -> Fate) { forall i: nat :: fate(i).Works? }

  /** Creating, noting and starting a variant. */
  function Beginning(k: nat, d: Docker, j: Journal, file: Option<Journal>, bad: bool): seq<State> {
    var id, noted, made := d.created, j.(active := Some(d.created)), d.(created := d.created + 1);
    [State(CreateNext(k), d, j, file, bad), State(SaveActive(k, id), made, noted, file, bad),
     State(StartNext(k, id), made, noted, Some(noted), bad),
     State(CheckNext(k, id), made.(running := {id}), noted, Some(noted), bad)]
  }

  /** Waiting for it, measuring it and stopping it. */
  function Ending(m: nat, k: nat, id: nat, d: Docker, j: Journal, bad: bool): seq<State> {
    var more := j.(evidence := j.evidence + 1);
    [State(CheckNext(k, id), d, j, Some(j), bad), State(MeasureNext(k, id), d, j, Some(j), bad),
     State(SaveNext(k, id), d, more, Some(j), bad), State(StopNext(k, id), d, more, Some(more), bad),
     State(NextVariant(m, k + 1), d.(running := {}), more, Some(more), bad)]
  }

  lemma BeginningPath(m: nat, k: nat, d: Docker, j: Journal, file: Option<Journal>, bad: bool, fate: nat -> Fate,
                      n: nat)
    requires d.running == {} && AllWork(fate)
    ensures Path(m, Beginning(k, d, j, file, bad), fate, n)
  {
    var p := Beginning(k, d, j, file, bad);
    assert Step(m, p[0], Works) == p[1];
    assert Step(m, p[1], Works) == p[2];
    assert Step(m, p[2], Works) == p[3];
  }

  lemma EndingPath(m: nat, k: nat, id: nat, d: Docker, j: Journal, bad: bool, fate: nat -> Fate, n: nat)
    requires d.running == {id} && AllWork(fate)
    ensures Path(m, Ending(m, k, id, d, j, bad), fate, n)
  {
    var p := Ending(m, k, id, d, j, bad);
    assert Step(m, p[0], Works) == p[1];
    assert Step(m, p[1], Works) == p[2];
    assert Step(m, p[2], Works) == p[3];
    assert d.running - {id} == {};
    assert Step(m, p[3], Works) == p[4];
  }

  lemma PathsJoin(m: nat, p: seq<State>, q: seq<State>, fate: nat -> Fate, n: nat)
    requires p != [] && q != [] && p[|p| - 1] == q[0] && Path(m, p, fate, n) && Path(m, q, fate, n + |p| - 1)
    ensures Path(m, p + q[1..], fate, n)
  {
    var pq := p + q[1..];
    forall i | 0 <= i < |pq| - 1 ensures pq[i].pc != Done && Step(m, pq[i], fate(n + i)) == pq[i + 1] {
      if i >= |p| - 1 {
        var k := i - (|p| - 1);
        assert pq[i] == q[k] && pq[i + 1] == q[k + 1];
        assert q[k].pc != Done && Step(m, q[k], fate(n + |p| - 1 + k)) == q[k + 1];
      }
    }
  }

  /** One variant from creation to stop. */
  function OneVariant(m: nat, k: nat, d: Docker, j: Journal, file: Option<Journal>, bad: bool): seq<State> {
    var id := d.created;
    Beginning(k, d, j, file, bad)
    + Ending(m, k, id, d.(created := id + 1, running := {id}), j.(active := Some(id)), bad)[1..]
  }

  lemma OneVariantPath(m: nat, k: nat, d: Docker, j: Journal, file: Option<Journal>, bad: bool, fate: nat -> Fate,
                       n: nat)
    requires d.running == {} && AllWork(fate)
    ensures Path(m, OneVariant(m, k, d, j, file, bad), fate, n)
  {
    var id := d.created;
    var up, noted := d.(created := id + 1, running := {id}), j.(active := Some(id));
    BeginningPath(m, k, d, j, file, bad, fate, n);
    EndingPath(m, k, id, up, noted, bad, fate, n + 3);
    PathsJoin(m, Beginning(k, d, j, file, bad), Ending(m, k, id, up, noted, bad), fate, n);
  }

  lemma VariantEnds(m: nat, s: State)
    requires s.pc.CreateNext? && s.docker.running == {}
    ensures var p := OneVariant(m, s.pc.k, s.docker, s.journal, s.file, s.stopFailed);
            var j := s.journal.(active := Some(s.docker.created), evidence := s.journal.evidence + 1);
            && |p| == 8 && p[0] == s
            && p[7] == State(NextVariant(m, s.pc.k + 1), s.docker.(created := s.docker.created + 1), j, Some(j),
                             s.stopFailed)
  {
  }

  /** One variant's seven calls. */
  lemma VariantWorks(m: nat, s: State, fate: nat -> Fate, n: nat)
    requires s.pc.CreateNext? && s.docker.running == {} && AllWork(fate)
    ensures var j := s.journal.(active := Some(s.docker.created), evidence := s.journal.evidence + 1);
            var after := State(NextVariant(m, s.pc.k + 1), s.docker.(created := s.docker.created + 1), j, Some(j),
                               s.stopFailed);
            Outcome(m, s, fate, n) == Outcome(m, after, fate, n + 7)
  {
    VariantEnds(m, s);
    OneVariantPath(m, s.pc.k, s.docker, s.journal, s.file, s.stopFailed, fate, n);
    PathOutcome(m, OneVariant(m, s.pc.k, s.docker, s.journal, s.file, s.stopFailed), fate, n);
  }

  /** From the restart to the end. */
  lemma RestartWorks(m: nat, s: State, fate: nat -> Fate, n: nat)
    requires s.pc == Restart && !s.docker.sourceRunning && AllWork(fate)
    ensures var j := s.journal.(active := None, restored := true);
            Outcome(m, s, fate, n)
              == State(Done, s.docker.(sourceRunning := true, sourceReady := true), j, Some(j), s.stopFailed)
  {
    var up := s.docker.(sourceRunning := true, sourceReady := true);
    var j := s.journal.(active := None, restored := true);
    var p := [s, State(Recheck, up.(sourceReady := false), s.journal, s.file, s.stopFailed),
              State(SaveRestored, up, s.journal, s.file, s.stopFailed), State(Done, up, j, Some(j), s.stopFailed)];
    assert Step(m, p[0], Works) == p[1];
    assert Step(m, p[1], Works) == p[2];
    assert Step(m, p[2], Works) == p[3];
    PathOutcome(m, p, fate, n);
  }

  /** From variant `k` on to the end. */
  lemma {:induction false} VariantsWork(m: nat, k: nat, s: State, fate: nat -> Fate, n: nat)
    requires k <= m && s.pc == NextVariant(m, k) && s.docker.running == {} && !s.docker.sourceRunning && AllWork(fate)
    ensures var end := Outcome(m, s, fate, n);
            && SourceUp(end) && end.docker.running == {} && end.file == Some(end.journal)
            && end.stopFailed == s.stopFailed
            && end.journal == s.journal.(active := None, restored := true, evidence := s.journal.evidence + (m - k))
    decreases m - k
  {
    if k < m {
      VariantWorks(m, s, fate, n);
      var j := s.journal.(active := Some(s.docker.created), evidence := s.journal.evidence + 1);
      var after := State(NextVariant(m, k + 1), s.docker.(created := s.docker.created + 1), j, Some(j), s.stopFailed);
      VariantsWork(m, k + 1, after, fate, n + 7);
    } else {
      RestartWorks(m, s, fate, n);
    }
  }

  /** When every call works, all variants and the source are measured and the source is up again, as the file says. */
  lemma OrderlyCampaign(m: nat, d: Docker, fate: nat -> Fate)
    requires Begins(d) && AllWork(fate)
    ensures var end := Outcome(m, Start(d), fate, 0);
            && SourceUp(end) && end.docker.running == {} && !end.stopFailed
            && end.journal == Journal(m + 1, true, None, false, false) && end.file == Some(end.journal)
  {
    var s := Start(d);
    var ready, once := d.(sourceReady := true), s.journal.(evidence := 1);
    var p := [s, State(Baseline, ready, s.journal, None, false), State(SaveBaseline, ready, once, None, false),
              State(StopFirst, ready, once, Some(once), false),
              State(NextVariant(m, 0), ready.(sourceRunning := false, sourceReady := false), once, Some(once), false)];
    assert Step(m, p[0], Works) == p[1];
    assert Step(m, p[1], Works) == p[2];
    assert Step(m, p[2], Works) == p[3];
    assert Step(m, p[3], Works) == p[4];
    PathOutcome(m, p, fate, 0);
    VariantsWork(m, 0, p[4], fate, 4);
  }

  // ----- the procedure -----

  lemma PathAppend(m: nat, states: seq<State>, fate: nat -> Fate, n: nat, next: State)
    requires states != [] && Path(m, states, fate, n)
    requires var last := states[|states| - 1]; last.pc != Done && Step(m, last, fate(n + |states| - 1)) == next
    ensures Path(m, states + [next], fate, n)
  {
  }

  class Runner {
    var docker: Docker
    var journal: Journal
    var file: Option<Journal>
    var calls: nat
    const fate: nat -> Fate
    ghost var stopFailed: bool
    ghost const start: State
    /** The states before each call so far, and now. */
    ghost var trace: seq<State>

    constructor (fate: nat -> Fate, source: Docker)
      ensures this.fate == fate && calls == 0 && start == Start(source)
      ensures docker == source && forall m :: In(m, At(First))
    {
      this.fate, docker, journal, file, calls, stopFailed := fate, source, Journal(0, false, None, false, false),
        None, 0, false;
      start, trace := Start(source), [Start(source)];
    }

    /** The whole state, with control before the call at `pc`. */
    ghost function At(pc: Pc): State
      reads this
    {
      State(pc, docker, journal, file, stopFailed)
    }

    /** The calls so far are those of a campaign of `m` variants, and have led to `s`. */
    ghost predicate In(m: nat, s: State)
      reads this
    {
      |trace| == calls + 1 && trace[0] == start && trace[calls] == s && Path(m, trace, fate, 0)
    }

    /** One call to Docker or to the measuring process, made with control at `pc`. */
    method Request(c: Call, ghost m: nat, ghost pc: Pc) returns (x: Exn)
      requires c == CallAt(pc) && !c.Save? && In(m, At(pc))
      modifies this`docker, this`calls, this`stopFailed, this`trace
      ensures docker == After(c, old(docker), fate(old(calls))) && x == Answer(c, old(docker), fate(old(calls)))
      ensures var id := old(docker.created);
              In(m, State(Goes(m, pc, x, id), docker, Noted(pc, x, id, journal), file, stopFailed))
    {
      ghost var next := Step(m, At(pc), fate(calls));
      PathAppend(m, trace, fate, 0, next);
      trace := trace + [next];
      var f := fate(calls);
      x := Answer(c, docker, f);
      docker := After(c, docker, f);
      calls := calls + 1;
      stopFailed := stopFailed || (StopsVariant(pc) && x != NoExn);
    }

    /** Write the journal out, which was `before` when control came to `pc`; may fail like any call. */
    method SaveJournal(ghost m: nat, ghost pc: Pc, ghost before: Journal) returns (x: Exn)
      requires CallAt(pc) == Save && pc != Done && Written(pc, before) == journal
      requires In(m, At(pc).(journal := before))
      modifies this`file, this`calls, this`trace
      ensures file == if Lands(fate(old(calls))) then Some(journal) else old(file)
      ensures x == Answer(Save, docker, fate(old(calls)))
      ensures In(m, At(Goes(m, pc, x, docker.created)))
    {
      ghost var next := Step(m, At(pc).(journal := before), fate(calls));
      PathAppend(m, trace, fate, 0, next);
      trace := trace + [next];
      var f := fate(calls);
      if Lands(f) {
        file := Some(journal);
      }
      calls := calls + 1;
      x := Answer(Save, docker, f);
    }

    /** One measurement, then its evidence journalled by the save that follows. */
    method MeasureOnce(ghost m: nat, ghost pc: Pc) returns (x: Exn)
      requires (pc.Baseline? || pc.MeasureNext?) && In(m, At(pc))
      modifies this
      ensures In(m, At(if x == NoExn then Goes(m, Goes(m, pc, x, 0), x, 0) else Goes(m, pc, x, 0)))
    {
      x := Request(Measure, m, pc);
      if x == NoExn {
        journal := journal.(evidence := journal.evidence + 1);
        x := SaveJournal(m, Goes(m, pc, x, 0), journal);
      }
    }

    /** Create a variant, note it as active and start it. */
    method StartNextVariant(ghost m: nat, k: nat) returns (x: Exn, active: Option<nat>)
      requires In(m, At(CreateNext(k)))
      modifies this
      ensures x == NoExn ==> active.Some?
      ensures In(m, At(if x == NoExn then CheckNext(k, active.value) else SaveError(true, active)))
    {
      var id := docker.created;
      x := Request(Create, m, CreateNext(k));
      if x != NoExn {
        return x, None;
      }
      active := Some(id);
      journal := journal.(active := active);
      x := SaveJournal(m, SaveActive(k, id), journal);
      if x != NoExn {
        return;
      }
      x := Request(StartVariant(id), m, StartNext(k, id));
    }

    /** Wait for it, measure it and stop it. */
    method FinishVariant(ghost m: nat, k: nat, id: nat) returns (x: Exn)
      requires In(m, At(CheckNext(k, id)))
      modifies this
      ensures In(m, At(if x == NoExn then NextVariant(m, k + 1) else SaveError(true, Some(id))))
    {
      x := Request(CheckVariant(id), m, CheckNext(k, id));
      if x != NoExn {
        return;
      }
      x := MeasureOnce(m, MeasureNext(k, id));
      if x != NoExn {
        return;
      }
      x := Request(StopVariant(id), m, StopNext(k, id));
    }

    /** The source's own measurement, before anything is stopped. */
    method MeasureSource(ghost m: nat) returns (x: Exn)
      requires In(m, At(First))
      modifies this
      ensures In(m, At(if x == NoExn then StopFirst else SaveError(false, None)))
    {
      x := Request(CheckSource, m, First);
      if x != NoExn {
        return;
      }
      x := MeasureOnce(m, Baseline);
    }

    /** One variant from creation to stop. */
    method RunVariant(ghost m: nat, k: nat) returns (x: Exn, active: Option<nat>)
      requires In(m, At(CreateNext(k)))
      modifies this
      ensures x == NoExn ==> active == None
      ensures In(m, At(if x == NoExn then NextVariant(m, k + 1) else SaveError(true, active)))
    {
      x, active := StartNextVariant(m, k);
      if x != NoExn {
        return;
      }
      x := FinishVariant(m, k, active.value);
      if x == NoExn {
        active := None;
      }
    }

    /** All variants, one after the other. */
    method RunVariants(ghost m: nat, variants: seq<int>) returns (x: Exn, active: Option<nat>)
      requires m == |variants| && In(m, At(NextVariant(m, 0)))
      modifies this
      ensures x == NoExn ==> active == None
      ensures In(m, At(if x == NoExn then Restart else SaveError(true, active)))
    {
      x, active := NoExn, None;
      for k := 0 to |variants|
        invariant x == NoExn && active == None && In(m, At(NextVariant(m, k)))
      {
        x, active := RunVariant(m, k);
        if x != NoExn {
          return;
        }
      }
    }

    /** The protected part. `stopped` is set before the source is asked to stop. */
    method Body(variants: seq<int>) returns (x: Exn, active: Option<nat>, stopped: bool)
      requires In(|variants|, At(First))
      modifies this
      ensures active.Some? ==> stopped
      ensures In(|variants|, At(if x == NoExn then Finally(stopped, active) else SaveError(stopped, active)))
    {
      ghost var m := |variants|;
      active, stopped := None, false;
      x := MeasureSource(m);
      if x != NoExn {
        return;
      }
      stopped := true;
      x := Request(StopSource, m, StopFirst);
      if x != NoExn {
        return;
      }
      x, active := RunVariants(m, variants);
    }

    /** Restart the source and check it. */
    method RestartSource(ghost m: nat) returns (ok: bool)
      requires In(m, At(Restart))
      modifies this
      ensures In(m, At(if ok then SaveRestored else Done))
    {
      var x := Request(StartSource, m, Restart);
      if x != NoExn {
        return false;
      }
      x := Request(CheckSource, m, Recheck);
      ok := x == NoExn;
    }

    /** Stop the variant that may still run; an interrupt breaks off, any other failure is noted. */
    method StopActive(ghost m: nat, v: nat) returns (ok: bool)
      requires In(m, At(LastStop(v)))
      modifies this
      ensures In(m, At(if ok then Restart else Done))
    {
      var x := Request(StopVariant(v), m, LastStop(v));
      if x == Error {
        journal := journal.(stopError := true);
      }
      ok := x != Interrupt;
    }

    /** The final part: stop what may run, restart the source if it was stopped, and only then journal it restored. */
    method Restore(ghost m: nat, active: Option<nat>, stopped: bool)
      requires (active.Some? ==> stopped) && In(m, At(Finally(stopped, active)))
      modifies this
      ensures In(m, At(Done))
    {
      if active.Some? {
        var ok := StopActive(m, active.value);
        if !ok {
          return;
        }
      }
      if stopped {
        var ok := RestartSource(m);
        if !ok {
          return;
        }
      }
      ghost var before := journal;
      journal := journal.(restored := true, active := None);
      var _ := SaveJournal(m, SaveRestored, before);
    }

    /** Note the error; whether or not that save works, the final part follows. */
    method NoteError(ghost m: nat, ghost stopped: bool, ghost active: Option<nat>)
      requires In(m, At(SaveError(stopped, active)))
      modifies this
      ensures In(m, At(Finally(stopped, active)))
    {
      ghost var before := journal;
      journal := journal.(error := true);
      var _ := SaveJournal(m, SaveError(stopped, active), before);
    }

    /**
     * The whole campaign is the one specified, call by call, so what is proved of every moment
     * and of every outcome holds of it.
     */
    method Run(variants: seq<int>)
      requires In(|variants|, At(First)) && start == Start(docker) && calls == 0 && Begins(docker)
      modifies this
      ensures In(|variants|, At(Done)) && start == Start(old(docker))
      ensures At(Done) == Outcome(|variants|, Start(old(docker)), fate, 0)
      ensures Apart(At(Done)) && (docker.running == {} || stopFailed)
    {
      ghost var m, d := |variants|, docker;
      var x, active, stopped := Body(variants);
      if x != NoExn {
        NoteError(m, stopped, active);
      }
      Restore(m, active, stopped);
      PathOutcome(m, trace, fate, 0);
      OutcomeOfDone(m, At(Done), fate, calls);
      EndsApart(m, d, fate);
    }
  }
}
