// Publishing a tested commit: pull request, merge, tag and prerelease, as a protocol
// that may be cut off at any call and run again.
module Publish {
  import opened Wrappers

  type Sha = int

  /** A pull request of the branch; `merged` is its merge commit. */
  datatype Pull = Pull(number: nat, head: Sha, ours: bool, open: bool, merged: Option<Sha>)

  datatype Ref = Ref(isCommit: bool, sha: Sha)

  datatype Release = Release(draft: bool, prerelease: bool)

  /**
   * The hosting side. Pulls are listed newest first; `mergeAs` is the commit a merge
   * would produce, `mergeable` whether reviews and checks allow one.
   */
  datatype Remote = Remote(branch: Option<Sha>, pulls: seq<Pull>, nextNumber: nat, diverged: bool, mergeable: bool,
                           mergeAs: Sha,
                           trees: map<Sha, Sha>, tag: Option<Ref>, release: Option<Release>)

  /** The tested commit and its tree. */
  datatype Config = Config(sha: Sha, tree: Sha)

  /** One page of results. */
  const PAGE := 100

  function Listed(r: Remote): seq<Pull> { if |r.pulls| <= PAGE then r.pulls else r.pulls[..PAGE] }

  function FirstMerged(ps: seq<Pull>, sha: Sha): Option<Sha> {
    if ps == [] then None
    else if ps[0].head == sha && ps[0].ours && ps[0].merged.Some? then ps[0].merged
    else FirstMerged(ps[1..], sha)
  }

  function FirstOpen(ps: seq<Pull>, sha: Sha): Option<nat> {
    if ps == [] then None
    else if ps[0].head == sha && ps[0].ours && ps[0].open then Some(ps[0].number)
    else FirstOpen(ps[1..], sha)
  }

  /** Pull `i` of the listing was merged with the tested head. */
  predicate MergedAt(ps: seq<Pull>, sha: Sha, i: int) {
    0 <= i < |ps| && ps[i].head == sha && ps[i].ours && ps[i].merged.Some?
  }

  /** ... is open with the tested head. */
  predicate OpenAt(ps: seq<Pull>, sha: Sha, i: int) { 0 <= i < |ps| && ps[i].head == sha && ps[i].ours && ps[i].open }

  predicate FirstMergedAt(ps: seq<Pull>, sha: Sha, i: int) {
    MergedAt(ps, sha, i) && forall j :: 0 <= j < i ==> !MergedAt(ps, sha, j)
  }

  predicate FirstOpenAt(ps: seq<Pull>, sha: Sha, i: int) {
    OpenAt(ps, sha, i) && forall j :: 0 <= j < i ==> !OpenAt(ps, sha, j)
  }

  predicate AnyMerged(ps: seq<Pull>, sha: Sha) { exists i :: 0 <= i < |ps| && MergedAt(ps, sha, i) }

  predicate AnyOurs(ps: seq<Pull>, sha: Sha) { exists i :: 0 <= i < |ps| && OpenAt(ps, sha, i) }

  lemma LaterMerged(ps: seq<Pull>, sha: Sha, i: nat)
    requires ps != [] && !MergedAt(ps, sha, 0) && FirstMergedAt(ps[1..], sha, i)
    ensures FirstMergedAt(ps, sha, i + 1) && ps[1..][i] == ps[i + 1]
  {
    forall j | 0 <= j < i + 1 ensures !MergedAt(ps, sha, j) {
      if j > 0 {
        assert !MergedAt(ps[1..], sha, j - 1);
      }
    }
  }

  lemma LaterOpen(ps: seq<Pull>, sha: Sha, i: nat)
    requires ps != [] && !OpenAt(ps, sha, 0) && FirstOpenAt(ps[1..], sha, i)
    ensures FirstOpenAt(ps, sha, i + 1) && ps[1..][i] == ps[i + 1]
  {
    forall j | 0 <= j < i + 1 ensures !OpenAt(ps, sha, j) {
      if j > 0 {
        assert !OpenAt(ps[1..], sha, j - 1);
      }
    }
  }

  /** The search finds the first pull merged with this head, and nothing exactly if there is none. */
  lemma {:induction false} FirstMergedIs(ps: seq<Pull>, sha: Sha)
    ensures FirstMerged(ps, sha).None? <==> !AnyMerged(ps, sha)
    ensures forall i :: FirstMergedAt(ps, sha, i) ==> FirstMerged(ps, sha) == ps[i].merged
    ensures FirstMerged(ps, sha).Some? ==> exists i :: FirstMergedAt(ps, sha, i)
  {
    if ps != [] {
      FirstMergedIs(ps[1..], sha);
      if MergedAt(ps, sha, 0) {
        assert FirstMergedAt(ps, sha, 0);
      } else {
        forall i | FirstMergedAt(ps, sha, i) ensures FirstMerged(ps, sha) == ps[i].merged {
          EarlierMerged(ps, sha, i);
        }
        forall i | MergedAt(ps, sha, i) ensures MergedAt(ps[1..], sha, i - 1) {
        }
        if FirstMerged(ps, sha).Some? {
          var i :| FirstMergedAt(ps[1..], sha, i);
          LaterMerged(ps, sha, i);
        }
      }
    }
  }

  lemma EarlierMerged(ps: seq<Pull>, sha: Sha, i: nat)
    requires ps != [] && !MergedAt(ps, sha, 0) && FirstMergedAt(ps, sha, i)
    ensures i > 0 && FirstMergedAt(ps[1..], sha, i - 1) && ps[1..][i - 1] == ps[i]
  {
    forall j | 0 <= j < i - 1 ensures !MergedAt(ps[1..], sha, j) {
      assert !MergedAt(ps, sha, j + 1);
    }
  }

  lemma EarlierOpen(ps: seq<Pull>, sha: Sha, i: nat)
    requires ps != [] && !OpenAt(ps, sha, 0) && FirstOpenAt(ps, sha, i)
    ensures i > 0 && FirstOpenAt(ps[1..], sha, i - 1) && ps[1..][i - 1] == ps[i]
  {
    forall j | 0 <= j < i - 1 ensures !OpenAt(ps[1..], sha, j) {
      assert !OpenAt(ps, sha, j + 1);
    }
  }

  /** ... and likewise the first open one. */
  lemma {:induction false} FirstOpenIs(ps: seq<Pull>, sha: Sha)
    ensures FirstOpen(ps, sha).None? <==> !AnyOurs(ps, sha)
    ensures forall i :: FirstOpenAt(ps, sha, i) ==> FirstOpen(ps, sha) == Some(ps[i].number)
    ensures FirstOpen(ps, sha).Some? ==> exists i :: FirstOpenAt(ps, sha, i)
  {
    if ps != [] {
      FirstOpenIs(ps[1..], sha);
      if OpenAt(ps, sha, 0) {
        assert FirstOpenAt(ps, sha, 0);
      } else {
        forall i | FirstOpenAt(ps, sha, i) ensures FirstOpen(ps, sha) == Some(ps[i].number) {
          EarlierOpen(ps, sha, i);
        }
        forall i | OpenAt(ps, sha, i) ensures OpenAt(ps[1..], sha, i - 1) {
        }
        if FirstOpen(ps, sha).Some? {
          var i :| FirstOpenAt(ps[1..], sha, i);
          LaterOpen(ps, sha, i);
        }
      }
    }
  }

  predicate AnyOpen(ps: seq<Pull>) { exists i :: 0 <= i < |ps| && ps[i].open }

  predicate CanMerge(r: Remote, number: nat, sha: Sha) {
    r.mergeable && exists i ::
      0 <= i < |r.pulls| && r.pulls[i].number == number && r.pulls[i].open && r.pulls[i].head == sha
  }

  function MarkMerged(ps: seq<Pull>, number: nat, commit: Sha): seq<Pull> {
    seq(|ps|, i requires 0 <= i < |ps| =>
          if ps[i].number == number then ps[i].(open := false, merged := Some(commit)) else ps[i])
  }

  predicate CanOpen(r: Remote) { r.branch.Some? && !AnyOpen(r.pulls) }

  function WithPull(r: Remote): Remote
    requires r.branch.Some?
  {
    r.(pulls := [Pull(r.nextNumber, r.branch.value, true, true, None)] + r.pulls, nextNumber := r.nextNumber + 1)
  }

  function WithMerge(r: Remote, number: nat): Remote { r.(pulls := MarkMerged(r.pulls, number, r.mergeAs)) }

  // ----- the protocol, call by call -----

  datatype Stop = WrongHead | Diverged | Refused | WrongTree | TagConflict | ReleaseConflict

  /** The call a run is about to make, with what it has learned so far. */
  datatype Pc =
    | GetHead
    | GetPulls
    | Compare(open: Option<nat>)
    | CreatePull
    | Merge(number: nat)
    | GetCommit(commit: Sha)
    | GetTag(commit: Sha)
    | CreateTag(commit: Sha)
    | GetRelease(commit: Sha)
    | CreateRelease(commit: Sha)
    | Finished
    | Stopped(why: Stop)

  predicate Terminal(pc: Pc) { pc.Finished? || pc.Stopped? }

  predicate Writes(pc: Pc) { pc.CreatePull? || pc.Merge? || pc.CreateTag? || pc.CreateRelease? }

  function Rank(pc: Pc): nat {
    match pc
    case GetHead => 10
    case GetPulls => 9
    case Compare(_) => 8
    case CreatePull => 7
    case Merge(_) => 6
    case GetCommit(_) => 5
    case GetTag(_) => 4
    case CreateTag(_) => 3
    case GetRelease(_) => 2
    case CreateRelease(_) => 1
    case _ => 0
  }

  /** One call that is answered, and the code up to the next call. */
  function Next(cfg: Config, pc: Pc, r: Remote): (n: (Pc, Remote))
    ensures !Terminal(pc) ==> Rank(n.0) < Rank(pc)
  {
    match pc
    case GetHead => (if r.branch == Some(cfg.sha) then GetPulls else Stopped(WrongHead), r)
    case GetPulls =>
      var merged := FirstMerged(Listed(r), cfg.sha);
      (if merged.Some? then GetCommit(merged.value) else Compare(FirstOpen(Listed(r), cfg.sha)), r)
    case Compare(open) =>
      (if r.diverged then Stopped(Diverged) else if open.Some? then Merge(open.value) else CreatePull, r)
    case CreatePull =>
      if CanOpen(r) then (Merge(r.nextNumber), WithPull(r)) else (Stopped(Refused), r)
    case Merge(number) =>
      if CanMerge(r, number, cfg.sha) then (GetCommit(r.mergeAs), WithMerge(r, number)) else (Stopped(Refused), r)
    case GetCommit(commit) =>
      (if commit in r.trees && r.trees[commit] == cfg.tree then GetTag(commit) else Stopped(WrongTree), r)
    case GetTag(commit) =>
      (if r.tag == None then CreateTag(commit)
       else if r.tag == Some(Ref(true, commit)) then GetRelease(commit)
       else Stopped(TagConflict), r)
    case CreateTag(commit) =>
      if r.tag.Some? then (Stopped(Refused), r) else (GetRelease(commit), r.(tag := Some(Ref(true, commit))))
    case GetRelease(commit) =>
      (if r.release == None then CreateRelease(commit)
       else if r.release == Some(Release(false, true)) then Finished else Stopped(ReleaseConflict), r)
    case CreateRelease(commit) =>
      if r.release.Some? then (Stopped(Refused), r) else (Finished, r.(release := Some(Release(false, true))))
    case _ => (pc, r)
  }

  /**
   * A run from `pc` with `budget` calls answered. The call after that is cut: it
   * never arrives, or (`lands`) it takes effect but its answer is lost.
   */
  function CutRun(cfg: Config, pc: Pc, r: Remote, budget: nat, lands: bool): (Pc, Remote)
    decreases Rank(pc)
  {
    if Terminal(pc) then (pc, r)
    else if budget == 0 then (pc, if lands then Next(cfg, pc, r).1 else r)
    else
      var n := Next(cfg, pc, r);
      CutRun(cfg, n.0, n.1, budget - 1, lands)
  }

  /** A run that nothing interrupts. */
  function WholeRun(cfg: Config, pc: Pc, r: Remote): (Pc, Remote)
    decreases Rank(pc)
  {
    if Terminal(pc) then (pc, r)
    else
      var n := Next(cfg, pc, r);
      WholeRun(cfg, n.0, n.1)
  }

  lemma {:induction false} EnoughBudgetIsWhole(cfg: Config, pc: Pc, r: Remote, budget: nat, lands: bool)
    requires budget >= Rank(pc)
    ensures CutRun(cfg, pc, r, budget, lands) == WholeRun(cfg, pc, r)
    ensures Terminal(WholeRun(cfg, pc, r).0)
    decreases Rank(pc)
  {
    if !Terminal(pc) {
      var n := Next(cfg, pc, r);
      EnoughBudgetIsWhole(cfg, n.0, n.1, budget - 1, lands);
    }
  }

  // ----- safety -----

  /** What can happen: calls answered, cut or refused, a run started afresh, others changing what is theirs. */
  datatype Event =
    | Call
    | CallLost
    | Abandon
    | Rerun
    | Others(remote: Remote)

  /** Others may push, open and merge pulls and add commits; the tag and its release are this protocol's. */
  predicate OthersMay(r: Remote, r': Remote) {
    r'.tag == r.tag && r'.release == r.release && forall c :: c in r.trees ==>
      c in r'.trees && r'.trees[c] == r.trees[c]
  }

  datatype System = System(pc: Pc, remote: Remote)

  function After(cfg: Config, s: System, e: Event): System {
    match e
    case Call => var n := Next(cfg, s.pc, s.remote); System(n.0, n.1)
    case CallLost => System(Stopped(Refused), Next(cfg, s.pc, s.remote).1)
    case Abandon => System(Stopped(Refused), s.remote)
    case Rerun => System(GetHead, s.remote)
    case Others(r) => if OthersMay(s.remote, r) then System(s.pc, r) else s
  }

  function History(cfg: Config, start: Remote, events: seq<Event>): System {
    if events == [] then System(GetHead, start)
    else After(cfg, History(cfg, start, events[..|events| - 1]), events[|events| - 1])
  }

  predicate Verified(cfg: Config, r: Remote, commit: Sha) { commit in r.trees && r.trees[commit] == cfg.tree }

  predicate TagVerified(cfg: Config, r: Remote) {
    r.tag.Some? && r.tag.value.isCommit && Verified(cfg, r, r.tag.value.sha)
  }

  /** The tag and the release are the old ones, or were made on verified ground. */
  predicate Safe(cfg: Config, start: Remote, s: System) {
    var r := s.remote;
    && (r.tag == start.tag || (start.tag == None && TagVerified(cfg, r)))
    && (r.release == start.release
        || (start.release == None && r.release == Some(Release(false, true)) && TagVerified(cfg, r)))
    && (match s.pc
        case GetTag(commit) => Verified(cfg, r, commit)
        case CreateTag(commit) => Verified(cfg, r, commit)
        case GetRelease(commit) => Verified(cfg, r, commit) && r.tag == Some(Ref(true, commit))
        case CreateRelease(commit) => Verified(cfg, r, commit) && r.tag == Some(Ref(true, commit))
        case _ => true)
  }

  /** Over any number of runs cut anywhere: no tag off the tested tree, none moved, no release before its tag. */
  lemma {:induction false} EveryHistorySafe(cfg: Config, start: Remote, events: seq<Event>)
    ensures Safe(cfg, start, History(cfg, start, events))
  {
    if events != [] {
      EveryHistorySafe(cfg, start, events[..|events| - 1]);
    }
  }

  /** Each single call: the tag is written at most once, from nothing, and a release only under it. */
  lemma EachCallSafe(cfg: Config, start: Remote, events: seq<Event>)
    ensures var s := History(cfg, start, events);
            var r := Next(cfg, s.pc, s.remote).1;
            && (r.tag != s.remote.tag ==> s.remote.tag == None && TagVerified(cfg, r))
            && (r.release != s.remote.release ==>
                  s.remote.release == None && TagVerified(cfg, s.remote) && r.tag == s.remote.tag)
  {
    EveryHistorySafe(cfg, start, events);
  }

  // ----- completion -----

  predicate DistinctNumbers(r: Remote) {
    && (forall i, j :: 0 <= i < j < |r.pulls| ==> r.pulls[i].number != r.pulls[j].number)
    && (forall i :: 0 <= i < |r.pulls| ==> r.pulls[i].number < r.nextNumber)
    && (forall i :: 0 <= i < |r.pulls| ==> !(r.pulls[i].open && r.pulls[i].merged.Some?))
  }

  /** What a merge commit needs for the rest to go through. */
  predicate GoodGround(cfg: Config, r: Remote, commit: Sha) {
    && Verified(cfg, r, commit)
    && (r.tag == None || r.tag == Some(Ref(true, commit)))
    && (r.release == None || r.release == Some(Release(false, true)))
  }

  /**
   * Where a run can finish, read off the remote before it starts: the first listed pull
   * merged with the tested head stands on good ground; or there is none, and a merge would,
   * of a listed open pull with that head or of a new one.
   */
  predicate Ready(cfg: Config, r: Remote) {
    var ps := Listed(r);
    && r.branch == Some(cfg.sha)
    && (forall i :: 0 <= i < |ps| && FirstMergedAt(ps, cfg.sha, i) ==> GoodGround(cfg, r, ps[i].merged.value))
    && (AnyMerged(ps, cfg.sha)
        || (!r.diverged && r.mergeable && GoodGround(cfg, r, r.mergeAs)
            && (AnyOurs(ps, cfg.sha) || !AnyOpen(r.pulls))))
  }

  /** The same by what a run finds. */
  predicate Completable(cfg: Config, r: Remote) {
    && r.branch == Some(cfg.sha)
    && var merged := FirstMerged(Listed(r), cfg.sha);
       if merged.Some? then GoodGround(cfg, r, merged.value)
       else !r.diverged && r.mergeable && GoodGround(cfg, r, r.mergeAs)
            && (FirstOpen(Listed(r), cfg.sha).Some? || !AnyOpen(r.pulls))
  }

  lemma ReadyIsCompletable(cfg: Config, r: Remote)
    ensures Ready(cfg, r) <==> Completable(cfg, r)
  {
    var ps := Listed(r);
    FirstMergedIs(ps, cfg.sha);
    FirstOpenIs(ps, cfg.sha);
    if FirstMerged(ps, cfg.sha).Some? {
      var i :| FirstMergedAt(ps, cfg.sha, i);
      assert FirstMerged(ps, cfg.sha) == ps[i].merged;
    }
  }

  lemma {:induction false} OpenIsListed(ps: seq<Pull>, sha: Sha) returns (i: nat)
    requires FirstOpen(ps, sha).Some?
    ensures i < |ps| && ps[i].number == FirstOpen(ps, sha).value && ps[i].open && ps[i].head == sha && ps[i].ours
  {
    if ps[0].head == sha && ps[0].ours && ps[0].open {
      i := 0;
    } else {
      i := OpenIsListed(ps[1..], sha);
      i := i + 1;
    }
  }

  /** An uninterrupted run finishes exactly from the remotes that are ready. */
  lemma CompletesIffReady(cfg: Config, r: Remote)
    ensures WholeRun(cfg, GetHead, r).0 == Finished <==> Ready(cfg, r)
  {
    ReadyIsCompletable(cfg, r);
    if r.branch == Some(cfg.sha) {
      var merged := FirstMerged(Listed(r), cfg.sha);
      if merged.Some? {
        RestCompletes(cfg, r, merged.value);
      } else if !r.diverged {
        MergeCompletes(cfg, r);
      }
    }
  }

  lemma RestCompletes(cfg: Config, r: Remote, commit: Sha)
    ensures WholeRun(cfg, GetCommit(commit), r).0 == Finished <==> GoodGround(cfg, r, commit)
  {
    if Verified(cfg, r, commit) {
      var checked, tagged := Next(cfg, GetTag(commit), r), Next(cfg, CreateTag(commit), r);
      assert WholeRun(cfg, GetCommit(commit), r) == WholeRun(cfg, GetTag(commit), r)
        == WholeRun(cfg, checked.0, checked.1);
      if r.tag == None {
        assert WholeRun(cfg, CreateTag(commit), r) == WholeRun(cfg, tagged.0, tagged.1);
        ReleaseCompletes(cfg, tagged.1, commit);
      } else if r.tag == Some(Ref(true, commit)) {
        ReleaseCompletes(cfg, r, commit);
      }
    }
  }

  lemma ReleaseCompletes(cfg: Config, r: Remote, commit: Sha)
    ensures WholeRun(cfg, GetRelease(commit), r).0 == Finished <==>
            r.release == None || r.release == Some(Release(false, true))
  {
    var made := Next(cfg, CreateRelease(commit), r);
    assert r.release == None ==> WholeRun(cfg, CreateRelease(commit), r) == made;
  }

  lemma MergeCompletes(cfg: Config, r: Remote)
    requires r.branch == Some(cfg.sha)
    ensures var open := FirstOpen(Listed(r), cfg.sha);
            WholeRun(cfg, if open.Some? then Merge(open.value) else CreatePull, r).0 == Finished
            <==> r.mergeable && GoodGround(cfg, r, r.mergeAs) && (open.Some? || !AnyOpen(r.pulls))
  {
    var open := FirstOpen(Listed(r), cfg.sha);
    if open.Some? {
      var i := OpenIsListed(Listed(r), cfg.sha);
      assert r.pulls[i] == Listed(r)[i];
      RestCompletes(cfg, r.(pulls := MarkMerged(r.pulls, open.value, r.mergeAs)), r.mergeAs);
    } else if !AnyOpen(r.pulls) {
      var created := Next(cfg, CreatePull, r).1;
      assert created.pulls[0].number == r.nextNumber && created.pulls[0].open;
      RestCompletes(cfg, created.(pulls := MarkMerged(created.pulls, r.nextNumber, r.mergeAs)), r.mergeAs);
    }
  }

  // ----- cuts and reruns -----

  lemma {:induction false} MergedIsFound(ps: seq<Pull>, sha: Sha, commit: Sha)
    requires forall i, j :: 0 <= i < j < |ps| ==> ps[i].number != ps[j].number
    requires FirstMerged(ps, sha) == None && FirstOpen(ps, sha).Some?
    ensures FirstMerged(MarkMerged(ps, FirstOpen(ps, sha).value, commit), sha) == Some(commit)
  {
    var number := FirstOpen(ps, sha).value;
    var marked := MarkMerged(ps, number, commit);
    if !(ps[0].head == sha && ps[0].ours && ps[0].open) {
      var i := OpenIsListed(ps[1..], sha);
      assert ps[0].number != ps[1..][i].number;
      MergedIsFound(ps[1..], sha, commit);
      assert marked[1..] == MarkMerged(ps[1..], number, commit);
    }
  }

  lemma {:induction false} NoneMergedInPrefix(ps: seq<Pull>, n: nat, sha: Sha)
    requires n <= |ps| && FirstMerged(ps, sha) == None
    ensures FirstMerged(ps[..n], sha) == None
  {
    if n > 0 {
      NoneMergedInPrefix(ps[1..], n - 1, sha);
      assert ps[..n][1..] == ps[1..][..n - 1];
    }
  }

  /** Where a run from a ready remote stands before each of its calls. */
  predicate OnTrack(cfg: Config, pc: Pc, r: Remote) {
    var merged, open := FirstMerged(Listed(r), cfg.sha), FirstOpen(Listed(r), cfg.sha);
    && DistinctNumbers(r) && Completable(cfg, r)
    && (match pc
        case GetHead => true
        case GetPulls => true
        case Compare(o) => merged == None && o == open
        case CreatePull => merged == None && open == None
        case Merge(number) => merged == None && open == Some(number)
        case GetCommit(commit) => merged == Some(commit)
        case GetTag(commit) => merged == Some(commit)
        case CreateTag(commit) => merged == Some(commit) && r.tag == None
        case GetRelease(commit) => merged == Some(commit) && r.tag == Some(Ref(true, commit))
        case CreateRelease(commit) => merged == Some(commit) && r.tag == Some(Ref(true, commit)) && r.release == None
        case Finished =>
          merged.Some? && r.tag == Some(Ref(true, merged.value)) && r.release == Some(Release(false, true))
        case Stopped(_) => false)
  }

  lemma CreateStaysOnTrack(cfg: Config, r: Remote)
    requires OnTrack(cfg, CreatePull, r)
    ensures var n := Next(cfg, CreatePull, r); OnTrack(cfg, n.0, n.1)
  {
    var n := Next(cfg, CreatePull, r);
    var page := Listed(n.1);
    var shown := if |r.pulls| < PAGE then |r.pulls| else PAGE - 1;
    assert page[1..] == Listed(r)[..shown];
    NoneMergedInPrefix(Listed(r), shown, cfg.sha);
  }

  lemma MergeStaysOnTrack(cfg: Config, number: nat, r: Remote)
    requires OnTrack(cfg, Merge(number), r)
    ensures var n := Next(cfg, Merge(number), r); OnTrack(cfg, n.0, n.1)
  {
    var i := OpenIsListed(Listed(r), cfg.sha);
    assert r.pulls[i] == Listed(r)[i];
    MergedIsFound(Listed(r), cfg.sha, r.mergeAs);
    assert Listed(r.(pulls := MarkMerged(r.pulls, number, r.mergeAs))) == MarkMerged(Listed(r), number, r.mergeAs);
  }

  lemma StaysOnTrack(cfg: Config, pc: Pc, r: Remote)
    requires OnTrack(cfg, pc, r)
    ensures var n := Next(cfg, pc, r); OnTrack(cfg, n.0, n.1)
  {
    match pc {
      case CreatePull => CreateStaysOnTrack(cfg, r);
      case Merge(number) => MergeStaysOnTrack(cfg, number, r);
      case _ =>
    }
  }

  lemma {:induction false} CutStaysOnTrack(cfg: Config, pc: Pc, r: Remote, budget: nat, lands: bool)
    requires OnTrack(cfg, pc, r)
    ensures var left := CutRun(cfg, pc, r, budget, lands).1; DistinctNumbers(left) && Completable(cfg, left)
    ensures budget >= Rank(pc) ==> var end := CutRun(cfg, pc, r, budget, lands); OnTrack(cfg, end.0, end.1)
    decreases Rank(pc)
  {
    if !Terminal(pc) {
      StaysOnTrack(cfg, pc, r);
      if budget > 0 {
        var n := Next(cfg, pc, r);
        CutStaysOnTrack(cfg, n.0, n.1, budget - 1, lands);
      }
    }
  }

  /** The remote after runs cut at the given points. */
  function AfterCuts(cfg: Config, r: Remote, cuts: seq<(nat, bool)>): Remote {
    if cuts == [] then r
    else
      var before := AfterCuts(cfg, r, cuts[..|cuts| - 1]);
      CutRun(cfg, GetHead, before, cuts[|cuts| - 1].0, cuts[|cuts| - 1].1).1
  }

  /** From a ready remote, after any number of runs cut anywhere, one uninterrupted run completes the job. */
  lemma {:induction false} RerunCompletes(cfg: Config, r: Remote, cuts: seq<(nat, bool)>)
    requires DistinctNumbers(r) && Ready(cfg, r)
    ensures var left := AfterCuts(cfg, r, cuts);
            DistinctNumbers(left) && Ready(cfg, left) && WholeRun(cfg, GetHead, left).0 == Finished
  {
    if cuts != [] {
      var front, cut := cuts[..|cuts| - 1], cuts[|cuts| - 1];
      RerunCompletes(cfg, r, front);
      ReadyIsCompletable(cfg, AfterCuts(cfg, r, front));
      CutStaysOnTrack(cfg, GetHead, AfterCuts(cfg, r, front), cut.0, cut.1);
    }
    ReadyIsCompletable(cfg, AfterCuts(cfg, r, cuts));
    CompletesIffReady(cfg, AfterCuts(cfg, r, cuts));
  }

  /** The remote is ready, and a run that is under way is right about what it has learned. */
  predicate Steady(cfg: Config, s: System) {
    DistinctNumbers(s.remote) && Ready(cfg, s.remote) && (s.pc.Stopped? || OnTrack(cfg, s.pc, s.remote))
  }

  /** Whatever others do leaves the system steady. */
  ghost predicate OthersKeepSteady(cfg: Config, start: Remote, events: seq<Event>) {
    forall i :: 0 <= i < |events| && events[i].Others? ==> Steady(cfg, History(cfg, start, events[..i + 1]))
  }

  lemma EventKeepsSteady(cfg: Config, s: System, e: Event)
    requires Steady(cfg, s) && !e.Others?
    ensures Steady(cfg, After(cfg, s, e))
  {
    ReadyIsCompletable(cfg, s.remote);
    if !s.pc.Stopped? {
      StaysOnTrack(cfg, s.pc, s.remote);
    }
    ReadyIsCompletable(cfg, After(cfg, s, e).remote);
  }

  /**
   * Over every history of calls, lost calls, abandoned runs, reruns and others' changes that
   * keep the system steady: one uninterrupted run from there completes the job.
   */
  lemma {:induction false} EveryHistoryCompletes(cfg: Config, start: Remote, events: seq<Event>)
    requires DistinctNumbers(start) && Ready(cfg, start) && OthersKeepSteady(cfg, start, events)
    ensures var s := History(cfg, start, events); Steady(cfg, s) && WholeRun(cfg, GetHead, s.remote).0 == Finished
  {
    if events == [] {
      ReadyIsCompletable(cfg, start);
    } else {
      var n := |events| - 1;
      forall i | 0 <= i < n && events[..n][i].Others? ensures Steady(cfg, History(cfg, start, events[..n][..i + 1])) {
        assert events[..n][..i + 1] == events[..i + 1];
      }
      EveryHistoryCompletes(cfg, start, events[..n]);
      if events[n].Others? {
        assert events[..n + 1] == events;
      } else {
        EventKeepsSteady(cfg, History(cfg, start, events[..n]), events[n]);
      }
    }
    CompletesIffReady(cfg, History(cfg, start, events).remote);
  }

  /** No call from here on writes. */
  predicate NoWrites(cfg: Config, pc: Pc, r: Remote)
    decreases Rank(pc)
  {
    Terminal(pc) || (!Writes(pc) && var n := Next(cfg, pc, r); NoWrites(cfg, n.0, n.1))
  }

  /** A run after completion makes no writes, and finishes again. */
  lemma CompletedRunIsQuiet(cfg: Config, r: Remote)
    requires DistinctNumbers(r) && WholeRun(cfg, GetHead, r).0 == Finished
    ensures var done := WholeRun(cfg, GetHead, r).1;
            NoWrites(cfg, GetHead, done) && WholeRun(cfg, GetHead, done) == (Finished, done)
  {
    CompletesIffReady(cfg, r);
    ReadyIsCompletable(cfg, r);
    EnoughBudgetIsWhole(cfg, GetHead, r, 10, false);
    CutStaysOnTrack(cfg, GetHead, r, 10, false);
    var done := WholeRun(cfg, GetHead, r).1;
    QuietWhenDone(cfg, done, FirstMerged(Listed(done), cfg.sha).value);
  }

  lemma QuietWhenDone(cfg: Config, r: Remote, commit: Sha)
    requires r.branch == Some(cfg.sha) && FirstMerged(Listed(r), cfg.sha) == Some(commit) && Verified(cfg, r, commit)
    requires r.tag == Some(Ref(true, commit)) && r.release == Some(Release(false, true))
    ensures NoWrites(cfg, GetHead, r) && WholeRun(cfg, GetHead, r) == (Finished, r)
  {
    QuietCall(cfg, GetRelease(commit), Finished, r);
    QuietCall(cfg, GetTag(commit), GetRelease(commit), r);
    QuietCall(cfg, GetCommit(commit), GetTag(commit), r);
    QuietCall(cfg, GetPulls, GetCommit(commit), r);
    QuietCall(cfg, GetHead, GetPulls, r);
  }

  lemma QuietCall(cfg: Config, pc: Pc, next: Pc, r: Remote)
    requires !Terminal(pc) && !Writes(pc) && Next(cfg, pc, r) == (next, r)
    requires NoWrites(cfg, next, r) && WholeRun(cfg, next, r) == (Finished, r)
    ensures NoWrites(cfg, pc, r) && WholeRun(cfg, pc, r) == (Finished, r)
  {
  }

  // ----- the procedure -----

  /** An answer, a refusal by the host, or a call that was cut. */
  datatype Reply<+T> = Lost | Declined | Got(value: T)

  /** The hosting API: once `budget` answers are given the next call is cut, after its effect if `lands`. */
  class GitHub {
    var remote: Remote
    var budget: nat
    const lands: bool

    constructor (remote: Remote, budget: nat, lands: bool)
      ensures this.remote == remote && this.budget == budget && this.lands == lands
    {
      this.remote, this.budget, this.lands := remote, budget, lands;
    }

    method Answered() returns (ok: bool)
      modifies this`budget
      ensures ok <==> old(budget) > 0
      ensures budget == if ok then old(budget) - 1 else 0
    {
      ok := budget > 0;
      budget := if ok then budget - 1 else 0;
    }

    /** A read: the part of the remote that `view` shows. */
    method Get<T>(view: Remote -> T) returns (reply: Reply<T>)
      modifies this`budget
      ensures budget == if old(budget) > 0 then old(budget) - 1 else 0
      ensures reply == if old(budget) > 0 then Got(view(remote)) else Lost
    {
      var ok := Answered();
      return if ok then Got(view(remote)) else Lost;
    }

    /** A write: declined when the host does not allow it. */
    method Write<T>(allowed: bool, effect: Remote, value: T) returns (reply: Reply<T>)
      modifies this
      ensures budget == if old(budget) > 0 then old(budget) - 1 else 0
      ensures reply == if old(budget) == 0 then Lost else if allowed then Got(value) else Declined
      ensures remote == if allowed && (old(budget) > 0 || lands) then effect else old(remote)
    {
      var ok := Answered();
      if allowed && (ok || lands) {
        remote := effect;
      }
      return if !ok then Lost else if allowed then Got(value) else Declined;
    }
  }

  /** A stage of a run took it from `pc` on to `at`, or ended it there. */
  ghost predicate Stage(cfg: Config, pc: Pc, before: Remote, calls: nat, at: Pc, live: bool, after: Remote, left: nat,
                        lands: bool) {
    CutRun(cfg, pc, before, calls, lands) == if live then CutRun(cfg, at, after, left, lands) else (at, after)
  }

  lemma Ended(cfg: Config, pc: Pc, r: Remote, budget: nat, lands: bool)
    requires Terminal(pc)
    ensures CutRun(cfg, pc, r, budget, lands) == (pc, r)
  {
  }

  /** Is the branch the tested commit, and is there a pull request to use? */
  method FindPull(api: GitHub, cfg: Config) returns (at: Pc, live: bool)
    modifies api
    ensures Stage(cfg, GetHead, old(api.remote), old(api.budget), at, live, api.remote, api.budget, api.lands)
    ensures live ==> at.GetCommit? || at.Merge? || at.CreatePull?
  {
    var head := api.Get((r: Remote) => r.branch);
    if head.Lost? {
      return GetHead, false;
    }
    if head.value != Some(cfg.sha) {
      return Stopped(WrongHead), false;
    }
    var pulls := api.Get((r: Remote) => Listed(r));
    if pulls.Lost? {
      return GetPulls, false;
    }
    var merged := FirstMerged(pulls.value, cfg.sha);
    if merged.Some? {
      return GetCommit(merged.value), true;
    }
    var open := FirstOpen(pulls.value, cfg.sha);
    var diverged := api.Get((r: Remote) => r.diverged);
    if diverged.Lost? {
      return Compare(open), false;
    }
    if diverged.value {
      return Stopped(Diverged), false;
    }
    return if open.Some? then Merge(open.value) else CreatePull, true;
  }

  method OpenPull(api: GitHub, cfg: Config) returns (at: Pc, live: bool)
    modifies api
    ensures Stage(cfg, CreatePull, old(api.remote), old(api.budget), at, live, api.remote, api.budget, api.lands)
    ensures live ==> at.Merge?
  {
    var r := api.remote;
    var created := api.Write(CanOpen(r), if CanOpen(r) then WithPull(r) else r, r.nextNumber);
    match created
    case Lost => return CreatePull, false;
    case Declined => return Stopped(Refused), false;
    case Got(number) => return Merge(number), true;
  }

  method MergePull(api: GitHub, cfg: Config, number: nat) returns (at: Pc, live: bool)
    modifies api
    ensures Stage(cfg, Merge(number), old(api.remote), old(api.budget), at, live, api.remote, api.budget, api.lands)
    ensures live ==> at.GetCommit?
  {
    var r := api.remote;
    var merge := api.Write(CanMerge(r, number, cfg.sha), WithMerge(r, number), r.mergeAs);
    match merge
    case Lost => return Merge(number), false;
    case Declined => return Stopped(Refused), false;
    case Got(commit) => return GetCommit(commit), true;
  }

  /** Check the merged tree, then look for the tag on it. */
  method VerifyMerge(api: GitHub, cfg: Config, commit: Sha) returns (at: Pc, live: bool)
    modifies api
    ensures Stage(cfg, GetCommit(commit), old(api.remote), old(api.budget), at, live, api.remote, api.budget, api.lands)
    ensures live ==> at == GetRelease(commit) || at == CreateTag(commit)
  {
    var tree := api.Get((r: Remote) => if commit in r.trees then Some(r.trees[commit]) else Option<Sha>.None);
    if tree.Lost? {
      return GetCommit(commit), false;
    }
    if tree.value != Some(cfg.tree) {
      return Stopped(WrongTree), false;
    }
    var tag := api.Get((r: Remote) => r.tag);
    if tag.Lost? {
      return GetTag(commit), false;
    }
    if tag.value.Some? {
      if !tag.value.value.isCommit || tag.value.value.sha != commit {
        Ended(cfg, Stopped(TagConflict), api.remote, api.budget, api.lands);
        return Stopped(TagConflict), false;
      }
      return GetRelease(commit), true;
    }
    return CreateTag(commit), true;
  }

  method PutTag(api: GitHub, cfg: Config, commit: Sha) returns (at: Pc, live: bool)
    modifies api
    ensures Stage(cfg, CreateTag(commit), old(api.remote), old(api.budget), at, live, api.remote, api.budget, api.lands)
    ensures live ==> at == GetRelease(commit)
  {
    var r := api.remote;
    var tagged := api.Write(r.tag == None, r.(tag := Some(Ref(true, commit))), ());
    match tagged
    case Lost => return CreateTag(commit), false;
    case Declined => return Stopped(Refused), false;
    case Got(_) => return GetRelease(commit), true;
  }

  method MakeRelease(api: GitHub, cfg: Config, commit: Sha) returns (at: Pc)
    modifies api
    ensures Stage(cfg, GetRelease(commit), old(api.remote), old(api.budget), at, false, api.remote, api.budget,
                  api.lands)
  {
    var release := api.Get((r: Remote) => r.release);
    if release.Lost? {
      return GetRelease(commit);
    }
    if release.value.Some? {
      return if release.value.value.draft || !release.value.value.prerelease then Stopped(ReleaseConflict)
        else Finished;
    }
    var r := api.remote;
    var released := api.Write(r.release == None, r.(release := Some(Release(false, true))), ());
    match released
    case Lost => return CreateRelease(commit);
    case Declined => return Stopped(Refused);
    case Got(_) =>
      Ended(cfg, Finished, api.remote, api.budget, api.lands);
      return Finished;
  }

  /** The whole procedure behaves, call by call and cut by cut, as the protocol says. */
  method Run(api: GitHub, cfg: Config) returns (at: Pc)
    modifies api
    ensures (at, api.remote) == CutRun(cfg, GetHead, old(api.remote), old(api.budget), api.lands)
    ensures old(api.budget) >= 10 ==> (at == Finished <==> Ready(cfg, old(api.remote)))
  {
    CompletesIffReady(cfg, api.remote);
    if api.budget >= 10 {
      EnoughBudgetIsWhole(cfg, GetHead, api.remote, api.budget, api.lands);
    }
    var live;
    at, live := FindPull(api, cfg);
    if live && at.CreatePull? {
      at, live := OpenPull(api, cfg);
    }
    if live && at.Merge? {
      at, live := MergePull(api, cfg, at.number);
    }
    if live {
      at, live := VerifyMerge(api, cfg, at.commit);
    }
    if live && at.CreateTag? {
      at, live := PutTag(api, cfg, at.commit);
    }
    if live {
      at := MakeRelease(api, cfg, at.commit);
    }
  }
}
