// The same column decisions for a whole batch: the host loop over request ids and the
// device kernel over request slots.
module AlignBatch {
  import opened Arithmetic
  import opened Memory
  import opened Wrappers
  import opened AlignColumns
  import opened StateCopy

  /** Where the state is carried from. */
  datatype Carry = Carry(src: int, bias: int)

  /** What a step decides for one request before the forward pass. */
  datatype Decision = Decision(column: int, carry: Option<Carry>, accepted: int)

  function PrevOf(recorded: Option<int>, computed: nat, blockSize: nat): int
    requires blockSize > 0
  {
    match recorded
    case Some(c) => c
    case None => SeedColumn(computed, blockSize)
  }

  /** The host's choice, counting blocks with the speculative ones and taking them off again. */
  function HostDecision(prev: int, computed: nat, scheduled: nat, accepted: int, blockSize: nat,
                        speculative: nat): Decision
    requires blockSize > 0
  {
    var blocks := AllottedColumns(computed, scheduled, blockSize, speculative);
    var curr := blocks - 1 - speculative;
    if prev != -1 && prev != curr then Decision(curr, Some(Carry(prev, accepted - 1)), 1)
    else Decision(curr, None, accepted)
  }

  /** The device's choice: one kernel stores source and reset, the other skips fresh and unmoved requests. */
  function DeviceDecision(stateIdx: int, computed: nat, scheduled: nat, accepted: int, blockSize: nat): Decision
    requires blockSize > 0
  {
    var off := if accepted - 1 > 0 then accepted - 1 else 0;
    var next := (computed + scheduled + blockSize - 1) / blockSize - 1;
    Decision(next,
             if stateIdx < 0 || stateIdx == next then None else Some(Carry(stateIdx, off)),
             if stateIdx >= 0 && stateIdx != next then 1 else accepted)
  }

  /** Host and device agree exactly when the accepted count is positive or nothing is carried. */
  lemma HostAndDeviceAgree(prev: int, computed: nat, scheduled: nat, accepted: int, b: nat, speculative: nat)
    requires b > 0 && prev >= -1
    ensures HostDecision(prev, computed, scheduled, accepted, b, speculative)
              == DeviceDecision(prev, computed, scheduled, accepted, b)
            <==> accepted >= 1 || prev == -1 || prev == RunningColumn(computed + scheduled, b)
  {
  }

  /** The decision is the one the column machine takes. */
  lemma DecisionIsPreCopy<T>(kind: Kind, b: nat, r: Request<T>, scheduled: nat, speculative: nat)
    requires b > 0 && r.accepted >= 1
    ensures var d := HostDecision(PrevColumn(r, b), |r.tokens|, scheduled, r.accepted, b, speculative);
            var r' := PreCopy(kind, b, r, scheduled);
            && r'.column == Some(d.column) && r'.accepted == d.accepted
            && r'.cols == match d.carry
                          case Some(c) => CopyState(kind, r.cols, c.src, d.column, r.accepted - 1)
                          case None => r.cols
  {
  }

  /** A request without a recorded column starts from its seed, as in the column machine. */
  lemma PrevOfIsPrevColumn<T>(r: Request<T>, b: nat)
    requires b > 0
    ensures PrevOf(r.column, |r.tokens|, b) == PrevColumn(r, b)
  {
  }

  /** How a decision is staged for the device: source -1 stands for no copy. */
  function CarrySource(d: Decision): int { if d.carry.Some? then d.carry.value.src else -1 }

  function CarryBias(d: Decision): int { if d.carry.Some? then d.carry.value.bias else 0 }

  // ----- the host loop -----

  class HostRunner {
    var stateIdx: map<string, int>
    const accepted: array<int>
    const srcCol: array<int>
    const bias: array<int>
    const column: array<int>

    constructor (capacity: nat)
      ensures stateIdx == map[]
      ensures accepted.Length == srcCol.Length == bias.Length == column.Length == capacity
      ensures fresh(accepted) && fresh(srcCol) && fresh(bias) && fresh(column) && Separate()
    {
      stateIdx := map[];
      accepted := new int[capacity];
      srcCol := new int[capacity];
      bias := new int[capacity];
      column := new int[capacity];
    }

    predicate Separate() {
      && accepted != srcCol && accepted != bias && accepted != column
      && srcCol != bias && srcCol != column && bias != column
      && accepted.Length == srcCol.Length == bias.Length == column.Length
    }

    /** Forget the columns of finished, preempted and resumed requests, and nothing else. */
    method Cleanup(finished: seq<string>, preempted: seq<string>, resumed: seq<string>)
      modifies this`stateIdx
      ensures stateIdx == map id | id in old(stateIdx) && id !in finished + preempted + resumed :: old(stateIdx)[id]
    {
      var gone := finished + preempted + resumed;
      for i := 0 to |gone|
        invariant stateIdx == map id | id in old(stateIdx) && id !in gone[..i] :: old(stateIdx)[id]
      {
        assert gone[..i + 1] == gone[..i] + [gone[i]];
        stateIdx := stateIdx - {gone[i]};
      }
      assert gone[..|gone|] == gone;
    }

    /** The decision for entry `i` of the batch, from the state before the loop. */
    static ghost function DecisionAt(ids: seq<string>, computed: map<string, nat>, scheduled: map<string, nat>,
                              blockSize: nat, speculative: nat, known: map<string, int>, counts: seq<int>,
                              i: nat): Decision
      requires blockSize > 0 && i < |ids| <= |counts| && ids[i] in computed && ids[i] in scheduled
    {
      var id := ids[i];
      var prev := PrevOf(if id in known then Some(known[id]) else None, computed[id], blockSize);
      HostDecision(prev, computed[id], scheduled[id], counts[i], blockSize, speculative)
    }

    /** Record and stage the decision for entry `i`, whose staged copy was cleared before. */
    method StageEntry(id: string, i: nat, computed: nat, scheduled: nat, blockSize: nat, speculative: nat)
      requires blockSize > 0 && Separate() && i < accepted.Length && srcCol[i] == -1 && bias[i] == 0
      modifies this`stateIdx, accepted, srcCol, bias, column
      ensures var prev := PrevOf(if id in old(stateIdx) then Some(old(stateIdx)[id]) else None, computed, blockSize);
              var d := HostDecision(prev, computed, scheduled, old(accepted[i]), blockSize, speculative);
              && stateIdx == old(stateIdx)[id := d.column]
              && column[..] == old(column[..])[i := d.column]
              && accepted[..] == old(accepted[..])[i := d.accepted]
              && srcCol[..] == old(srcCol[..])[i := CarrySource(d)]
              && bias[..] == old(bias[..])[i := CarryBias(d)]
    {
      var prev := if id in stateIdx then stateIdx[id] else SeedColumn(computed, blockSize);
      var blocks := AllottedColumns(computed, scheduled, blockSize, speculative);
      var curr := blocks - 1 - speculative;
      stateIdx := stateIdx[id := curr];
      column[i] := curr;
      if prev != -1 && prev != curr {
        srcCol[i] := prev;
        bias[i] := accepted[i] - 1;
        accepted[i] := 1;
      }
    }

    /** The buffers hold decision `d` at position `k`. */
    ghost predicate Staged(d: Decision, id: string, k: nat)
      requires Separate() && k < accepted.Length
      reads this, accepted, srcCol, bias, column
    {
      && id in stateIdx && stateIdx[id] == column[k] == d.column
      && srcCol[k] == CarrySource(d) && bias[k] == CarryBias(d)
      && accepted[k] == d.accepted
    }

    /**
     * Cleanup, then one decision per batch entry: its column is recorded and staged,
     * its copy staged (or -1 and 0), and its accepted count reset when state is carried.
     */
    method Preprocess(ids: seq<string>, computed: map<string, nat>, scheduled: map<string, nat>,
                      finished: seq<string>, preempted: seq<string>, resumed: seq<string>,
                      blockSize: nat, speculative: nat)
      requires blockSize > 0 && Separate() && |ids| <= accepted.Length
      requires forall i, j :: 0 <= i < j < |ids| ==> ids[i] != ids[j]
      requires forall i :: 0 <= i < |ids| ==> ids[i] in computed && ids[i] in scheduled
      modifies this`stateIdx, accepted, srcCol, bias, column
      ensures var gone := finished + preempted + resumed;
              var known := map id | id in old(stateIdx) && id !in gone :: old(stateIdx)[id];
              && (forall id :: id in stateIdx <==> id in known || id in ids)
              && (forall id :: id in known && id !in ids ==> stateIdx[id] == known[id])
              && (forall i: nat :: i < |ids| ==>
                    Staged(DecisionAt(ids, computed, scheduled, blockSize, speculative, known, old(accepted[..]), i),
                           ids[i], i))
      ensures accepted[|ids|..] == old(accepted[|ids|..])
    {
      Cleanup(finished, preempted, resumed);
      ghost var known, counts := stateIdx, accepted[..];
      forall i | 0 <= i < |ids| { srcCol[i] := -1; }
      forall i | 0 <= i < |ids| { bias[i] := 0; }
      ghost var plan := seq(|ids|, i requires 0 <= i < |ids| =>
                              DecisionAt(ids, computed, scheduled, blockSize, speculative, known, counts, i));
      StageAll(ids, computed, scheduled, blockSize, speculative, plan);
    }

    method StageAll(ids: seq<string>, computed: map<string, nat>, scheduled: map<string, nat>,
                    blockSize: nat, speculative: nat, ghost plan: seq<Decision>)
      requires blockSize > 0 && Separate() && |ids| == |plan| <= accepted.Length
      requires forall i, j :: 0 <= i < j < |ids| ==> ids[i] != ids[j]
      requires forall i :: 0 <= i < |ids| ==> ids[i] in computed && ids[i] in scheduled
      requires forall i :: 0 <= i < |ids| ==> srcCol[i] == -1 && bias[i] == 0
      requires forall i: nat :: i < |ids| ==>
                 plan[i] == DecisionAt(ids, computed, scheduled, blockSize, speculative, stateIdx, accepted[..], i)
      modifies this`stateIdx, accepted, srcCol, bias, column
      ensures forall id :: id in stateIdx <==> id in old(stateIdx) || id in ids
      ensures forall id :: id in old(stateIdx) && id !in ids ==> stateIdx[id] == old(stateIdx)[id]
      ensures forall i: nat :: i < |ids| ==> Staged(plan[i], ids[i], i)
      ensures forall k :: |ids| <= k < accepted.Length ==> accepted[k] == old(accepted[k])
    {
      ghost var known := stateIdx;
      for i := 0 to |ids|
        invariant forall id :: id in stateIdx <==> id in known || id in ids[..i]
        invariant forall id :: id in known && id !in ids[..i] ==> stateIdx[id] == known[id]
        invariant forall k: nat :: k < i ==> Staged(plan[k], ids[k], k)
        invariant forall k :: i <= k < |ids| ==> srcCol[k] == -1 && bias[k] == 0
        invariant forall k :: i <= k < accepted.Length ==> accepted[k] == old(accepted[k])
      {
        var id := ids[i];
        assert id !in ids[..i];
        StageEntry(id, i, computed[id], scheduled[id], blockSize, speculative);
        assert ids[..i + 1] == ids[..i] + [id];
      }
      assert ids[..|ids|] == ids;
    }
  }

  // ----- the device kernel -----

  /** One lane of the fused preprocess kernel, working in place on the slots of its batch entry. */
  method PreprocessLane(mapping: seq<nat>, queryStart: seq<nat>, computed: seq<nat>, lane: nat,
                        stateIdx: array<int>, accepted: array<int>, srcCol: array<int>, srcOff: array<int>,
                        blockSize: nat)
    requires blockSize > 0 && Slots(mapping, queryStart, computed, stateIdx, accepted, srcCol, srcOff)
    requires lane < |mapping|
    modifies stateIdx, accepted, srcCol, srcOff
    ensures var slot := mapping[lane];
            var was, count := old(stateIdx[slot]), old(accepted[slot]);
            var d := DeviceDecision(was, computed[slot], queryStart[lane + 1] - queryStart[lane], count, blockSize);
            && stateIdx[..] == old(stateIdx[..])[slot := d.column]
            && accepted[..] == old(accepted[..])[slot := d.accepted]
            && srcCol[..] == old(srcCol[..])[slot := was]
            && srcOff[..] == old(srcOff[..])[slot := if count - 1 > 0 then count - 1 else 0]
  {
    var slot := mapping[lane];
    var was, count := stateIdx[slot], accepted[slot];
    srcCol[slot] := was;
    srcOff[slot] := if count - 1 > 0 then count - 1 else 0;
    var after := computed[slot] + queryStart[lane + 1] - queryStart[lane];
    var next := (after + blockSize - 1) / blockSize - 1;
    stateIdx[slot] := next;
    if was >= 0 && was != next {
      accepted[slot] := 1;
    }
  }

  ghost predicate Slots(mapping: seq<nat>, queryStart: seq<nat>, computed: seq<nat>,
                        stateIdx: array<int>, accepted: array<int>, srcCol: array<int>, srcOff: array<int>)
  {
    && stateIdx != accepted && stateIdx != srcCol && stateIdx != srcOff && accepted != srcCol && accepted != srcOff
    && srcCol != srcOff
    && stateIdx.Length == accepted.Length == srcCol.Length == srcOff.Length == |computed|
    && |queryStart| == |mapping| + 1
    && (forall i :: 0 <= i < |mapping| ==> mapping[i] < |computed| && queryStart[i] <= queryStart[i + 1])
    && (forall i, j :: 0 <= i < j < |mapping| ==> mapping[i] != mapping[j])
  }

  /** The four per-slot buffers of the kernel. */
  datatype SlotBuffers = SlotBuffers(idx: seq<int>, accepted: seq<int>, src: seq<int>, off: seq<int>)

  /** The launch's inputs, which no lane changes. */
  datatype PreprocessLaunch = PreprocessLaunch(mapping: seq<nat>, queryStart: seq<nat>, computed: seq<nat>,
                                               blockSize: nat) {
    ghost predicate Valid() {
      && blockSize > 0 && |queryStart| == |mapping| + 1
      && (forall i :: 0 <= i < |mapping| ==> mapping[i] < |computed| && queryStart[i] <= queryStart[i + 1])
      && (forall i, j :: 0 <= i < j < |mapping| ==> mapping[i] != mapping[j])
    }

    ghost function Lanes(): set<nat> { set lane: nat | lane < |mapping| && IsLane(lane) :: lane }

    predicate IsLane(lane: nat) { lane < |mapping| }

    ghost predicate Fits(b: SlotBuffers) { |b.idx| == |b.accepted| == |b.src| == |b.off| == |computed| }

    /** Slot `mapping[lane]` holds the decision taken from its values in `before`. */
    ghost predicate Decided(lane: nat, before: SlotBuffers, now: SlotBuffers)
      requires Valid() && Fits(before) && Fits(now) && lane < |mapping|
    {
      var slot := mapping[lane];
      var d := DeviceDecision(before.idx[slot], computed[slot], queryStart[lane + 1] - queryStart[lane],
                              before.accepted[slot], blockSize);
      && now.idx[slot] == d.column && now.accepted[slot] == d.accepted
      && now.src[slot] == before.idx[slot]
      && now.off[slot] == (if before.accepted[slot] - 1 > 0 then before.accepted[slot] - 1 else 0)
    }

    /** The lanes in `done` have decided, and every other slot is as it was. */
    ghost predicate Progress(done: set<nat>, before: SlotBuffers, now: SlotBuffers)
      requires Valid() && Fits(before) && Fits(now)
    {
      && (forall lane :: lane in done ==> lane < |mapping| && Decided(lane, before, now))
      && (forall slot ::
            (0 <= slot < |computed| && forall lane :: lane in done && lane < |mapping| ==> mapping[lane] != slot) ==>
            now.idx[slot] == before.idx[slot] && now.accepted[slot] == before.accepted[slot])
    }

    /** `now` differs from `was` at most in `slot`. */
    ghost predicate OnlySlot(slot: nat, was: SlotBuffers, now: SlotBuffers)
      requires Fits(was) && Fits(now)
    {
      forall k :: 0 <= k < |computed| && k != slot ==>
        now.idx[k] == was.idx[k] && now.accepted[k] == was.accepted[k] && now.src[k] == was.src[k]
        && now.off[k] == was.off[k]
    }

    lemma LaneProgress(done: set<nat>, lane: nat, before: SlotBuffers, was: SlotBuffers, now: SlotBuffers)
      requires Valid() && Fits(before) && Fits(was) && Fits(now) && lane < |mapping| && lane !in done
      requires Progress(done, before, was) && Decided(lane, was, now) && OnlySlot(mapping[lane], was, now)
      ensures Progress(done + {lane}, before, now)
    {
      var slot := mapping[lane];
      assert forall other :: other in done && other < |mapping| ==> mapping[other] != slot;
      forall other | other in done ensures Decided(other, before, now) {
        assert Decided(other, before, was);
      }
    }
  }

  /** The launch, lanes in any order: no slot's decision sees another's. */
  method PreprocessKernel(launch: PreprocessLaunch, order: seq<nat>,
                          stateIdx: array<int>, accepted: array<int>, srcCol: array<int>, srcOff: array<int>)
    requires launch.Valid()
    requires Slots(launch.mapping, launch.queryStart, launch.computed, stateIdx, accepted, srcCol, srcOff)
    requires IsOrder(order, |launch.mapping|)
    modifies stateIdx, accepted, srcCol, srcOff
    ensures var before := old(SlotBuffers(stateIdx[..], accepted[..], srcCol[..], srcOff[..]));
            var now := SlotBuffers(stateIdx[..], accepted[..], srcCol[..], srcOff[..]);
            launch.Progress(launch.Lanes(), before, now)
  {
    ghost var before := SlotBuffers(stateIdx[..], accepted[..], srcCol[..], srcOff[..]);
    ghost var done: set<nat> := {};
    for n := 0 to |order|
      invariant forall lane :: lane in done <==> lane in order[..n]
      invariant launch.Progress(done, before, SlotBuffers(stateIdx[..], accepted[..], srcCol[..], srcOff[..]))
    {
      var lane := order[n];
      assert order[..n + 1] == order[..n] + [lane];
      assert lane !in order[..n];
      ghost var was := SlotBuffers(stateIdx[..], accepted[..], srcCol[..], srcOff[..]);
      PreprocessLane(launch.mapping, launch.queryStart, launch.computed, lane, stateIdx, accepted, srcCol, srcOff,
                     launch.blockSize);
      launch.LaneProgress(done, lane, before, was, SlotBuffers(stateIdx[..], accepted[..], srcCol[..], srcOff[..]));
      done := done + {lane};
    }
    assert order[..|order|] == order;
    forall lane: nat ensures lane in done <==> lane in launch.Lanes() {
      assert launch.IsLane(lane) ==> lane in order;
    }
    assert done == launch.Lanes();
  }
}
