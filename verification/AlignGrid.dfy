// The two copying launches of a step over a whole batch: pre-copy, driven by staged
// columns, and post-processing, which decides and copies at once and reads its counts
// from a snapshot.
module AlignGrid {
  import opened Arithmetic
  import opened Memory
  import opened Wrappers
  import opened AlignColumns
  import opened AlignBatch
  import opened StateCopy
  import opened ColumnRefinement
  import opened CopyGrid

  // ----- pre-copy -----

  /** Source and destination columns and biases by slot; `slots` maps batch entries, a negative one is skipped. */
  datatype Staging = Staging(slots: seq<int>, column: seq<int>, src: seq<int>, bias: seq<int>) {
    /** A slot with a source has a destination and a bias. */
    ghost predicate Valid() {
      && |column| == |src| == |bias|
      && (forall k :: 0 <= k < |slots| ==> slots[k] < |column|)
      && (forall i :: 0 <= i < |src| && src[i] >= 0 ==> column[i] >= 0 && bias[i] >= 0)
    }

    function TransferOf(k: nat): Option<Transfer>
      requires Valid() && k < |slots|
    {
      if slots[k] < 0 then None
      else
        var i := slots[k];
        if src[i] < 0 || src[i] == column[i] then None else Some(Transfer(src[i], column[i], bias[i]))
    }

    ghost predicate Plans(w: Sweep)
      requires Valid()
    {
      |w.plan| == |slots| && forall k: nat :: k < |slots| ==> w.plan[k] == TransferOf(k)
    }
  }

  /** One program of the pre-copy kernel. */
  method PrecopyProgram(staging: Staging, w: Sweep, p: Place, mem: array<Byte>)
    requires staging.Valid() && staging.Plans(w) && w.Owned(mem.Length) && w.IsPlace(p)
    modifies mem
    ensures mem[..] == w.After(p, old(mem[..]))
  {
    var i := staging.slots[p.0];
    if i < 0 {
      return;
    }
    var src, dst := staging.src[i], staging.column[i];
    if src < 0 || src == dst {
      return;
    }
    assert w.Has(p.0, p.1);
    w.JobFits(p, mem.Length);
    var row := w.rows[w.groups[p.1]][p.0];
    var _ := CopyStateBlock(mem, Job(w.states[p.1], row, src, dst, staging.bias[i], p.2, w.tiles, w.block));
  }

  /** The pre-copy launch, its programs in the order of `grid`. */
  method PrecopyKernel(staging: Staging, w: Sweep, grid: seq<Place>, mem: array<Byte>)
    requires staging.Valid() && staging.Plans(w) && w.Owned(mem.Length) && w.InGrid(grid)
    modifies mem
    ensures mem[..] == w.RunGrid(grid, old(mem[..]))
  {
    for n := 0 to |grid|
      invariant mem[..] == w.RunGrid(grid[..n], old(mem[..]))
    {
      PrecopyProgram(staging, w, grid[n], mem);
      assert grid[..n + 1][..n] == grid[..n];
    }
    assert grid[..|grid|] == grid;
  }

  /** What pre-copy has to copy for a request of which `scheduled` more tokens are to run. */
  function Carried<T>(b: nat, r: Request<T>, scheduled: nat): Option<Transfer>
    requires b > 0 && r.accepted >= 1 && scheduled > 0
  {
    var prev, curr := PrevColumn(r, b), RunningColumn(|r.tokens| + scheduled, b);
    ColumnSpan(|r.tokens| + scheduled, b);
    if prev < 0 || prev == curr then None else Some(Transfer(prev, curr, r.accepted - 1))
  }

  /** Slot `i` holds what the host loop stages for the request ... */
  ghost predicate HostStaged<T>(staging: Staging, i: nat, b: nat, r: Request<T>, scheduled: nat, speculative: nat)
    requires staging.Valid() && i < |staging.column| && b > 0
  {
    var d := HostDecision(PrevColumn(r, b), |r.tokens|, scheduled, r.accepted, b, speculative);
    staging.column[i] == d.column && staging.src[i] == CarrySource(d) && staging.bias[i] == CarryBias(d)
  }

  /** ... or what the device kernel leaves there. */
  ghost predicate DeviceStaged<T>(staging: Staging, i: nat, b: nat, r: Request<T>, scheduled: nat)
    requires staging.Valid() && i < |staging.column| && b > 0
  {
    && staging.column[i] == DeviceDecision(PrevColumn(r, b), |r.tokens|, scheduled, r.accepted, b).column
    && staging.src[i] == PrevColumn(r, b)
    && staging.bias[i] == if r.accepted - 1 > 0 then r.accepted - 1 else 0
  }

  /** The host loop stages just that for the request it meets at position `i` ... */
  lemma HostLoopStages<T>(staging: Staging, ids: seq<string>, computed: map<string, nat>, scheduled: map<string, nat>,
                          b: nat, speculative: nat, known: map<string, int>, counts: seq<int>, i: nat, r: Request<T>)
    requires staging.Valid() && i < |staging.column| && b > 0
    requires i < |ids| <= |counts| && ids[i] in computed && ids[i] in scheduled
    requires computed[ids[i]] == |r.tokens| && counts[i] == r.accepted
    requires r.column == if ids[i] in known then Some(known[ids[i]]) else None
    requires var d := HostRunner.DecisionAt(ids, computed, scheduled, b, speculative, known, counts, i);
             staging.column[i] == d.column && staging.src[i] == CarrySource(d) && staging.bias[i] == CarryBias(d)
    ensures HostStaged(staging, i, b, r, scheduled[ids[i]], speculative)
  {
    PrevOfIsPrevColumn(r, b);
  }

  /** ... and so does the device kernel for the slot of one of its lanes. */
  lemma KernelStages<T>(staging: Staging, launch: PreprocessLaunch, lane: nat, before: SlotBuffers, now: SlotBuffers,
                        r: Request<T>)
    requires staging.Valid() && launch.Valid() && launch.Fits(before) && launch.Fits(now) && lane < |launch.mapping|
    requires launch.Decided(lane, before, now)
    requires staging.column == now.idx && staging.src == now.src && staging.bias == now.off
    requires var slot := launch.mapping[lane];
             && launch.computed[slot] == |r.tokens| && before.accepted[slot] == r.accepted
             && before.idx[slot] == PrevColumn(r, launch.blockSize)
    ensures DeviceStaged(staging, launch.mapping[lane], launch.blockSize, r,
                         launch.queryStart[lane + 1] - launch.queryStart[lane])
  {
  }

  /** Column `c`, if it is one, has its block outside the pool. */
  predicate BadBlock(s: State, row: seq<int>, c: int) { 0 <= c < |row| && !s.GoodBlock(row[c]) }

  lemma CarriedMoves<T>(s: State, row: seq<int>, b: nat, r: Request<T>, scheduled: nat, length: nat)
    requires b > 0 && r.accepted >= 1 && scheduled > 0 && PrevColumn(r, b) >= -1
    requires Carried(b, r, scheduled).Some? ==> Fits(s, row, Carried(b, r, scheduled).value, length)
    ensures Moved(KindOf(s), s, row, r.cols, Carried(b, r, scheduled))
            == if BadBlock(s, row, RunningColumn(|r.tokens| + scheduled, b)) then r.cols
               else PreCopy(KindOf(s), b, r, scheduled).cols
  {
    ColumnSpan(|r.tokens| + scheduled, b);
  }

  /**
   * For every batch and every order of its programs: the launch leaves each request the
   * columns that pre-copy of the column machine gives it, or, if the block of the new
   * column lies outside the pool, the columns it had.
   */
  lemma PrecopyCarries<T>(staging: Staging, w: Sweep, grid: seq<Place>, mem: seq<Byte>, k: nat, s: nat, b: nat,
                          r: Request<T>, scheduled: nat, speculative: nat, code: Code<T>)
    requires b > 0 && r.accepted >= 1 && scheduled > 0 && PrevColumn(r, b) >= -1
    requires staging.Valid() && staging.Plans(w) && k < |staging.slots| && staging.slots[k] >= 0
    requires HostStaged(staging, staging.slots[k], b, r, scheduled, speculative)
             || DeviceStaged(staging, staging.slots[k], b, r, scheduled)
    requires Ready(w, |mem|, k, s, r.cols) && w.Covers(grid) && Shows(mem, w.states[s], w.RowOf(k, s), r.cols, code)
    ensures var st, row := w.states[s], w.RowOf(k, s);
            Shows(w.RunGrid(grid, mem), st, row,
                  if BadBlock(st, row, RunningColumn(|r.tokens| + scheduled, b)) then r.cols
                  else PreCopy(KindOf(st), b, r, scheduled).cols, code)
  {
    GridMoves(w, grid, mem, k, s, r.cols, code);
    StagedIsCarried(staging, k, b, r, scheduled, speculative);
    assert w.FitsAt(k, s, |mem|);
    CarriedMoves(w.states[s], w.RowOf(k, s), b, r, scheduled, |mem|);
  }

  lemma StagedIsCarried<T>(staging: Staging, k: nat, b: nat, r: Request<T>, scheduled: nat, speculative: nat)
    requires b > 0 && r.accepted >= 1 && scheduled > 0 && PrevColumn(r, b) >= -1
    requires staging.Valid() && k < |staging.slots| && staging.slots[k] >= 0
    requires HostStaged(staging, staging.slots[k], b, r, scheduled, speculative)
             || DeviceStaged(staging, staging.slots[k], b, r, scheduled)
    ensures staging.TransferOf(k) == Carried(b, r, scheduled)
  {
  }

  // ----- post-processing -----

  /** The save decided from a token count that was already advanced. */
  function DecisionAfter(after: nat, accepted: nat, blockSize: nat): Option<Save>
    requires blockSize > 0
  {
    var running := after - accepted + 1;
    var aligned := after / blockSize * blockSize;
    if aligned >= running then Some(Save(aligned - running, aligned / blockSize - 1)) else None
  }

  /** Both ways of finding the running token count lead to the same save. */
  lemma DecisionsAgree(computed: nat, scheduled: nat, draft: nat, accepted: nat, b: nat)
    requires b > 0 && draft < scheduled && accepted >= 1
    ensures DecisionAfter(computed + scheduled - draft + accepted - 1, accepted, b)
              == PostDecision(computed, scheduled, draft, accepted, b)
  {
  }

  predicate ResetDue(column: int, d: Option<Save>) { d.Some? && d.value.dst == column }

  predicate CopyDue(column: int, d: Option<Save>) { d.Some? && !(d.value.dst == column && d.value.bias == 0) }

  /** Why the counts are read from a snapshot: a program that saw the reset count would never copy. */
  lemma SeenResetLosesCopy(column: int, after: nat, accepted: nat, b: nat)
    requires b > 0 && accepted >= 1 && ResetDue(column, DecisionAfter(after, accepted, b))
    ensures !CopyDue(column, DecisionAfter(after, 1, b))
    ensures CopyDue(column, DecisionAfter(after, accepted, b)) <==> DecisionAfter(after, accepted, b).value.bias > 0
  {
    BlockBounds(after, b);
  }

  /**
   * One launch: `slots` maps batch entries to request slots, a negative one is skipped;
   * columns, advanced token counts and the snapshot of the accepted counts are by slot.
   */
  datatype Batch = Batch(slots: seq<int>, column: seq<nat>, after: seq<nat>, snapshot: seq<nat>, blockSize: nat) {
    ghost predicate Valid() {
      && blockSize > 0 && |column| == |after| == |snapshot|
      && (forall k :: 0 <= k < |slots| ==> slots[k] < |column|)
      && (forall i, j :: 0 <= i < j < |slots| && slots[i] >= 0 ==> slots[i] != slots[j])
    }

    predicate Mapped(k: nat) { k < |slots| && slots[k] >= 0 }

    function SaveOf(k: nat): Option<Save>
      requires Valid() && Mapped(k)
    {
      DecisionAfter(after[slots[k]], snapshot[slots[k]], blockSize)
    }

    /** The save `d` of entry `k` needs a copy. */
    predicate Copies(k: nat, d: Option<Save>)
      requires Valid() && Mapped(k)
    {
      CopyDue(column[slots[k]], d) && d.value.dst >= 0
    }

    function TransferOf(k: nat): Option<Transfer>
      requires Valid() && k < |slots|
    {
      if !Mapped(k) || !Copies(k, SaveOf(k)) then None
      else Some(Transfer(column[slots[k]], SaveOf(k).value.dst, SaveOf(k).value.bias))
    }

    ghost predicate Plans(w: Sweep)
      requires Valid()
    {
      |w.plan| == |slots| && forall k: nat :: k < |slots| ==> w.plan[k] == TransferOf(k)
    }
  }

  /** The copying part of one program: decide, then copy. */
  method PostprocessProgram(batch: Batch, w: Sweep, p: Place, mem: array<Byte>)
    requires batch.Valid() && batch.Plans(w) && w.Owned(mem.Length) && w.IsPlace(p)
    modifies mem
    ensures mem[..] == w.After(p, old(mem[..]))
  {
    if batch.slots[p.0] < 0 {
      return;
    }
    var save := batch.SaveOf(p.0);
    if !batch.Copies(p.0, save) {
      return;
    }
    assert w.Has(p.0, p.1);
    w.JobFits(p, mem.Length);
    var row, src := w.rows[w.groups[p.1]][p.0], batch.column[batch.slots[p.0]];
    var _ := CopyStateBlock(mem, Job(w.states[p.1], row, src, save.value.dst, save.value.bias, p.2, w.tiles, w.block));
  }

  /** The copying part of the launch, its programs in the order of `grid`. */
  method PostprocessKernel(batch: Batch, w: Sweep, grid: seq<Place>, mem: array<Byte>)
    requires batch.Valid() && batch.Plans(w) && w.Owned(mem.Length) && w.InGrid(grid)
    modifies mem
    ensures mem[..] == w.RunGrid(grid, old(mem[..]))
  {
    for n := 0 to |grid|
      invariant mem[..] == w.RunGrid(grid[..n], old(mem[..]))
    {
      PostprocessProgram(batch, w, grid[n], mem);
      assert grid[..n + 1][..n] == grid[..n];
    }
    assert grid[..|grid|] == grid;
  }

  /** Slot `i` holds what a request's step leaves behind: its column, its advanced count, its accepted count. */
  ghost predicate Holding(batch: Batch, i: nat, computed: nat, scheduled: nat, draft: nat, accepted: nat)
    requires batch.Valid() && i < |batch.column|
  {
    && batch.column[i] == RunningColumn(computed + scheduled, batch.blockSize)
    && batch.after[i] == computed + scheduled - draft + accepted - 1
    && batch.snapshot[i] == accepted
  }

  /** The copy due after a step. */
  function Due(computed: nat, scheduled: nat, draft: nat, accepted: nat, b: nat): Option<Transfer>
    requires b > 0 && draft < scheduled && 1 <= accepted <= draft + 1
  {
    PostArithmetic(computed, scheduled, draft, accepted, b);
    ColumnSpan(computed + scheduled, b);
    var column := RunningColumn(computed + scheduled, b);
    match PostDecision(computed, scheduled, draft, accepted, b)
    case None => None
    case Some(save) =>
      if save.dst == column && save.bias == 0 then None else Some(Transfer(column, save.dst, save.bias))
  }

  lemma TransferIsDue(batch: Batch, k: nat, computed: nat, scheduled: nat, draft: nat, accepted: nat)
    requires batch.Valid() && batch.Mapped(k) && draft < scheduled && 1 <= accepted <= draft + 1
    requires Holding(batch, batch.slots[k], computed, scheduled, draft, accepted)
    ensures batch.TransferOf(k) == Due(computed, scheduled, draft, accepted, batch.blockSize)
  {
    DecisionsAgree(computed, scheduled, draft, accepted, batch.blockSize);
    PostArithmetic(computed, scheduled, draft, accepted, batch.blockSize);
  }

  /** The column a step saves to, if it saves. */
  function SavedTo(computed: nat, scheduled: nat, draft: nat, accepted: nat, b: nat): int
    requires b > 0 && draft < scheduled && accepted >= 1
  {
    match PostDecision(computed, scheduled, draft, accepted, b)
    case None => -1
    case Some(save) => save.dst
  }

  lemma DueMoves<T>(s: State, row: seq<int>, b: nat, r: Request<T>, chunk: seq<T>, draft: nat, accepted: nat,
                    length: nat)
    requires b > 0 && draft < |chunk| && 1 <= accepted <= draft + 1
    requires var due := Due(|r.tokens|, |chunk|, draft, accepted, b);
             due.Some? ==> Fits(s, row, due.value, length)
    ensures var column := RunningColumn(|r.tokens| + |chunk|, b);
            Moved(KindOf(s), s, row, r.cols, Due(|r.tokens|, |chunk|, draft, accepted, b))
            == if BadBlock(s, row, SavedTo(|r.tokens|, |chunk|, draft, accepted, b)) then r.cols
               else PostCopy(KindOf(s), b, r, column, chunk, draft, accepted).cols
  {
  }

  /**
   * For every batch and every order of its programs: the launch leaves each request the
   * columns that the save of the column machine gives it (those it had, when no save is
   * due), or, if the block saved to lies outside the pool, the columns it had.
   */
  lemma PostprocessSaves<T>(batch: Batch, w: Sweep, grid: seq<Place>, mem: seq<Byte>, k: nat, s: nat, r: Request<T>,
                            chunk: seq<T>, draft: nat, accepted: nat, code: Code<T>)
    requires batch.Valid() && batch.Plans(w) && batch.Mapped(k) && draft < |chunk| && 1 <= accepted <= draft + 1
    requires Holding(batch, batch.slots[k], |r.tokens|, |chunk|, draft, accepted)
    requires Ready(w, |mem|, k, s, r.cols) && w.Covers(grid) && Shows(mem, w.states[s], w.RowOf(k, s), r.cols, code)
    ensures var st, row, b := w.states[s], w.RowOf(k, s), batch.blockSize;
            var column := RunningColumn(|r.tokens| + |chunk|, b);
            Shows(w.RunGrid(grid, mem), st, row,
                  if BadBlock(st, row, SavedTo(|r.tokens|, |chunk|, draft, accepted, b)) then r.cols
                  else PostCopy(KindOf(st), b, r, column, chunk, draft, accepted).cols, code)
  {
    GridMoves(w, grid, mem, k, s, r.cols, code);
    TransferIsDue(batch, k, |r.tokens|, |chunk|, draft, accepted);
    assert w.FitsAt(k, s, |mem|);
    DueMoves(w.states[s], w.RowOf(k, s), batch.blockSize, r, chunk, draft, accepted, |mem|);
  }

  // ----- the accepted counts -----

  /** One program's count update: only the first tile of the first state stores. */
  method StoreCount(batch: Batch, p: Place, counts: array<int>)
    requires batch.Valid() && p.0 < |batch.slots| && counts.Length == |batch.column|
    modifies counts
    ensures counts[..] == if p.1 == 0 && p.2 == 0 && Resets(batch, p.0)
                          then old(counts[..])[batch.slots[p.0] := 1] else old(counts[..])
  {
    if batch.slots[p.0] < 0 {
      return;
    }
    var slot := batch.slots[p.0];
    var save := batch.SaveOf(p.0);
    if save.Some? && save.value.dst == batch.column[slot] && p.1 == 0 && p.2 == 0 {
      counts[slot] := 1;
    }
  }

  predicate Resets(batch: Batch, k: nat)
    requires batch.Valid()
  {
    batch.Mapped(k) && ResetDue(batch.column[batch.slots[k]], batch.SaveOf(k))
  }

  /** The whole grid in any order, with the counts updated in place and read from the snapshot. */
  method StoreCounts(batch: Batch, grid: seq<Place>, counts: array<int>)
    requires batch.Valid() && counts.Length == |batch.column|
    requires forall i :: 0 <= i < |grid| ==> grid[i].0 < |batch.slots|
    requires forall k: nat :: k < |batch.slots| ==> (k, 0, 0) in grid
    modifies counts
    ensures forall k: nat :: k < |batch.slots| && batch.slots[k] >= 0 ==>
              var slot := batch.slots[k];
              counts[slot] == if Resets(batch, k) then 1 else old(counts[slot])
    ensures forall slot :: 0 <= slot < counts.Length && slot !in batch.slots ==> counts[slot] == old(counts[slot])
  {
    for n := 0 to |grid|
      invariant forall k: nat :: batch.Mapped(k) ==> CountIs(batch, k, grid[..n], old(counts[..]), counts[..])
      invariant forall slot :: 0 <= slot < counts.Length && slot !in batch.slots ==> counts[slot] == old(counts[slot])
    {
      ghost var was := counts[..];
      StoreCount(batch, grid[n], counts);
      ghost var ran := grid[..n + 1];
      forall k: nat | batch.Mapped(k) ensures CountIs(batch, k, ran, old(counts[..]), counts[..]) {
        assert CountIs(batch, k, grid[..n], old(counts[..]), was);
        NextProgram(batch, k, grid, n, old(counts[..]), was, counts[..]);
      }
    }
    assert grid[..|grid|] == grid;
    forall k: nat | k < |batch.slots| && batch.slots[k] >= 0
      ensures counts[batch.slots[k]] == if Resets(batch, k) then 1 else old(counts[batch.slots[k]])
    {
      assert batch.Mapped(k);
      assert CountIs(batch, k, grid, old(counts[..]), counts[..]);
    }
  }

  lemma NextProgram(batch: Batch, k: nat, grid: seq<Place>, n: nat, before: seq<int>, was: seq<int>, now: seq<int>)
    requires batch.Valid() && batch.Mapped(k) && |before| == |was| == |now| == |batch.column| && n < |grid|
    requires grid[n].0 < |batch.slots| && CountIs(batch, k, grid[..n], before, was)
    requires now == if grid[n].1 == 0 && grid[n].2 == 0 && Resets(batch, grid[n].0)
                    then was[batch.slots[grid[n].0] := 1] else was
    ensures CountIs(batch, k, grid[..n + 1], before, now)
  {
    assert grid[..n + 1] == grid[..n] + [grid[n]];
    if grid[n].0 != k && batch.Mapped(grid[n].0) {
      assert batch.slots[grid[n].0] != batch.slots[k];
    }
  }

  ghost predicate CountIs(batch: Batch, k: nat, ran: seq<Place>, before: seq<int>, now: seq<int>)
    requires batch.Valid() && batch.Mapped(k) && |before| == |now| == |batch.column|
  {
    var slot := batch.slots[k];
    now[slot] == if (k, 0, 0) in ran && Resets(batch, k) then 1 else before[slot]
  }

  /** A count is reset exactly when the step ends saved in its own running column, as the column machine has it. */
  lemma ResetsAsMachine<T>(kind: Kind, batch: Batch, k: nat, r: Request<T>, chunk: seq<T>, draft: nat, accepted: nat)
    requires batch.Valid() && batch.Mapped(k) && draft < |chunk| && 1 <= accepted <= draft + 1
    requires Holding(batch, batch.slots[k], |r.tokens|, |chunk|, draft, accepted)
    ensures var column := RunningColumn(|r.tokens| + |chunk|, batch.blockSize);
            PostCopy(kind, batch.blockSize, r, column, chunk, draft, accepted).accepted
            == if Resets(batch, k) then 1 else batch.snapshot[batch.slots[k]]
  {
    DecisionsAgree(|r.tokens|, |chunk|, draft, accepted, batch.blockSize);
  }
}
