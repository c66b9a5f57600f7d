// A launch of the shared copy body: one program for every batch entry, state tensor and
// tile, each copying between two columns of its entry's block-table row.
module CopyGrid {
  import opened Arithmetic
  import opened Memory
  import opened Wrappers
  import opened AlignColumns
  import opened StateCopy
  import opened ColumnRefinement

  /** What a batch entry has copied: column `src`, `bias` tokens on, to column `dst`. */
  datatype Transfer = Transfer(src: nat, dst: nat, bias: nat)

  /** Batch entry, state, tile. */
  type Place = (nat, nat, nat)

  function KindOf(s: State): Kind { if s.Conv() then Conv else Temporal }

  /** The columns a transfer names lie in the row, and a window is shifted by no more than its width. */
  ghost predicate Fits(s: State, row: seq<int>, m: Transfer, length: nat) {
    && s.Valid(length) && m.dst < |row| && 0 <= ReadColumn(KindOf(s), m.src, m.bias) < |row|
    && (s.Conv() ==> m.bias <= s.convWidth)
  }

  /** Both block ids lie in the pool. */
  predicate Lands(s: State, row: seq<int>, m: Transfer) {
    && m.dst < |row| && 0 <= ReadColumn(KindOf(s), m.src, m.bias) < |row|
    && s.GoodBlock(row[m.dst]) && s.GoodBlock(row[ReadColumn(KindOf(s), m.src, m.bias)])
  }

  /** The transfer, if it goes through, writes no data of block `id` of `t`. */
  predicate Misses(s: State, row: seq<int>, m: Transfer, t: State, id: nat) {
    Lands(s, row, m) ==> RangesApart(s.BlockAddr(row[m.dst]), s.Extent(), t.BlockAddr(id), t.Extent())
  }

  /** ... nor of the blocks another transfer works on, if that one goes through. */
  predicate MissesBlocks(s: State, row: seq<int>, m: Transfer, t: State, other: seq<int>, n: Transfer) {
    Lands(t, other, n) ==>
      Misses(s, row, m, t, other[n.dst]) && Misses(s, row, m, t, other[ReadColumn(KindOf(t), n.src, n.bias)])
  }

  ghost predicate AllFit(jobs: seq<Job>, length: nat) { forall i :: 0 <= i < |jobs| ==> jobs[i].Valid(length) }

  lemma RunOneMore(ps: seq<Program>, p: Program, mem: seq<Byte>)
    ensures RunAll(ps + [p], mem) == p.run(RunAll(ps, mem))
  {
    assert (ps + [p])[..|ps|] == ps;
  }

  lemma ProgramsAppend(before: seq<Job>, j: Job, length: nat)
    requires AllFit(before, length) && j.Valid(length)
    ensures AllFit(before + [j], length)
    ensures Programs(before + [j], length) == Programs(before, length) + [ProgramOf(j, length)]
  {
  }

  lemma OneMoreJob(before: seq<Job>, j: Job, mid: seq<Byte>, mem: seq<Byte>)
    requires AllFit(before, |mem|) && j.Valid(|mem|) && |mid| == |mem| && mid == RunAll(Programs(before, |mem|), mem)
    ensures AllFit(before + [j], |mem|)
    ensures RunAll(Programs(before + [j], |mem|), mem) == Effect(j, mid)
  {
    ProgramsAppend(before, j, |mem|);
    RunOneMore(Programs(before, |mem|), ProgramOf(j, |mem|), mem);
  }

  lemma OwnedAppend(before: seq<Job>, j: Job, length: nat)
    requires OwnBlocks(before, length) && j.Valid(length)
    requires forall i :: 0 <= i < |before| ==> NoClash(before[i], j, length)
    ensures OwnBlocks(before + [j], length)
  {
  }

  /**
   * One launch: the state tensors, each group's block-table rows by batch entry, and what
   * each entry has copied.
   */
  datatype Sweep = Sweep(states: seq<State>, groups: seq<nat>, rows: seq<seq<seq<int>>>, tiles: nat, block: nat,
                         plan: seq<Option<Transfer>>) {
    ghost predicate Valid() {
      && tiles > 0 && block > 0 && |groups| == |states|
      && (forall s :: 0 <= s < |states| ==> groups[s] < |rows|)
      && (forall g :: 0 <= g < |rows| ==> |rows[g]| == |plan|)
    }

    ghost predicate Has(k: nat, s: nat) { Valid() && k < |plan| && s < |states| }

    function RowOf(k: nat, s: nat): seq<int>
      requires Has(k, s)
    {
      rows[groups[s]][k]
    }

    function JobOf(k: nat, s: nat, t: nat): Job
      requires Has(k, s) && plan[k].Some?
    {
      var m := plan[k].value;
      Job(states[s], RowOf(k, s), m.src, m.dst, m.bias, t, tiles, block)
    }

    predicate IsPlace(p: Place) { p.0 < |plan| && p.1 < |states| && p.2 < tiles }

    predicate InGrid(grid: seq<Place>) { forall i :: 0 <= i < |grid| ==> IsPlace(grid[i]) }

    /** Every program of the launch, once, in some order. */
    ghost predicate Covers(grid: seq<Place>) {
      && InGrid(grid)
      && (forall i, j :: 0 <= i < j < |grid| ==> grid[i] != grid[j])
      && (forall p: Place :: IsPlace(p) ==> p in grid)
    }

    ghost predicate FitsAt(k: nat, s: nat, length: nat)
      requires Has(k, s)
    {
      plan[k].Some? ==> Fits(states[s], RowOf(k, s), plan[k].value, length)
    }

    ghost predicate KeptApart(k: nat, s: nat, k': nat, s': nat)
      requires Has(k, s) && Has(k', s')
    {
      plan[k].Some? && plan[k'].Some? ==>
        MissesBlocks(states[s], RowOf(k, s), plan[k].value, states[s'], RowOf(k', s'), plan[k'].value)
    }

    /** Every transfer fits, and none is aimed at data another one works on. */
    ghost predicate Owned(length: nat) {
      && Valid()
      && (forall k: nat, s: nat :: Has(k, s) ==> FitsAt(k, s, length))
      && (forall k: nat, s: nat, k': nat, s': nat :: Has(k, s) && Has(k', s') && (k, s) != (k', s') ==>
            KeptApart(k, s, k', s'))
    }

    lemma JobFits(p: Place, length: nat)
      requires Owned(length) && IsPlace(p) && plan[p.0].Some?
      ensures JobOf(p.0, p.1, p.2).Valid(length)
    {
      assert Has(p.0, p.1);
      assert FitsAt(p.0, p.1, length);
    }

    // ----- what the launch does -----

    /** One program. */
    function After(p: Place, mem: seq<Byte>): (r: seq<Byte>)
      requires Owned(|mem|) && IsPlace(p)
      ensures |r| == |mem|
    {
      if plan[p.0].None? then mem
      else
        JobFits(p, |mem|);
        Effect(JobOf(p.0, p.1, p.2), mem)
    }

    /** The programs in the order of `grid`. */
    function RunGrid(grid: seq<Place>, mem: seq<Byte>): (r: seq<Byte>)
      requires Owned(|mem|) && InGrid(grid)
      ensures |r| == |mem|
      decreases |grid|
    {
      if grid == [] then mem else After(grid[|grid| - 1], RunGrid(grid[..|grid| - 1], mem))
    }

    // ----- the launch as independent programs -----

    /** The jobs of the programs that copy. */
    ghost function Jobs(grid: seq<Place>): seq<Job>
      requires Valid() && InGrid(grid)
      decreases |grid|
    {
      if grid == [] then []
      else
        var p := grid[|grid| - 1];
        Jobs(grid[..|grid| - 1]) + if plan[p.0].Some? then [JobOf(p.0, p.1, p.2)] else []
    }

    ghost predicate JobAt(p: Place, j: Job)
      requires Valid()
    {
      IsPlace(p) && plan[p.0].Some? && j == JobOf(p.0, p.1, p.2)
    }

    lemma {:induction false} PlaceOfJob(grid: seq<Place>, i: nat) returns (p: Place)
      requires Valid() && InGrid(grid) && i < |Jobs(grid)|
      ensures p in grid && JobAt(p, Jobs(grid)[i])
      decreases |grid|
    {
      var n := |grid| - 1;
      if i < |Jobs(grid[..n])| {
        p := PlaceOfJob(grid[..n], i);
      } else {
        p := grid[n];
      }
    }

    lemma {:induction false} JobOfPlace(grid: seq<Place>, p: Place)
      requires Valid() && InGrid(grid) && IsPlace(p) && p in grid && plan[p.0].Some?
      ensures JobOf(p.0, p.1, p.2) in Jobs(grid)
      decreases |grid|
    {
      var n := |grid| - 1;
      if p != grid[n] {
        JobOfPlace(grid[..n], p);
      }
    }

    lemma JobsDoNotClash(length: nat, p: Place, q: Place, i: Job, j: Job)
      requires Owned(length) && JobAt(p, i) && JobAt(q, j) && p != q
      ensures i.Valid(length) && j.Valid(length) && NoClash(i, j, length)
    {
      JobFits(p, length);
      JobFits(q, length);
      if (p.0, p.1) == (q.0, q.1) {
        assert SameCopy(i, j);
      } else {
        assert Has(p.0, p.1) && Has(q.0, q.1);
        assert KeptApart(p.0, p.1, q.0, q.1) && KeptApart(q.0, q.1, p.0, p.1);
      }
    }

    lemma {:induction false} JobsOwned(grid: seq<Place>, length: nat)
      requires Owned(length) && InGrid(grid)
      requires forall i, j :: 0 <= i < j < |grid| ==> grid[i] != grid[j]
      ensures OwnBlocks(Jobs(grid), length)
      decreases |grid|
    {
      if grid != [] {
        var n := |grid| - 1;
        JobsOwned(grid[..n], length);
        LastJobOwned(grid, length);
      }
    }

    lemma LastJobOwned(grid: seq<Place>, length: nat)
      requires Owned(length) && InGrid(grid) && grid != []
      requires forall i, j :: 0 <= i < j < |grid| ==> grid[i] != grid[j]
      requires OwnBlocks(Jobs(grid[..|grid| - 1]), length)
      ensures OwnBlocks(Jobs(grid), length)
    {
      var n := |grid| - 1;
      var before, p := Jobs(grid[..n]), grid[n];
      if plan[p.0].Some? {
        var j := JobOf(p.0, p.1, p.2);
        JobFits(p, length);
        forall i | 0 <= i < |before| ensures NoClash(before[i], j, length) {
          var q := PlaceOfJob(grid[..n], i);
          JobsDoNotClash(length, q, p, before[i], j);
        }
        OwnedAppend(before, j, length);
      }
    }

    lemma {:induction false} JobsFit(grid: seq<Place>, length: nat)
      requires Owned(length) && InGrid(grid)
      ensures AllFit(Jobs(grid), length)
      decreases |grid|
    {
      if grid != [] {
        JobsFit(grid[..|grid| - 1], length);
        if plan[grid[|grid| - 1].0].Some? {
          JobFits(grid[|grid| - 1], length);
        }
      }
    }

    lemma {:induction false} GridIsLaunch(grid: seq<Place>, mem: seq<Byte>)
      requires Owned(|mem|) && InGrid(grid) && AllFit(Jobs(grid), |mem|)
      ensures RunGrid(grid, mem) == RunAll(Programs(Jobs(grid), |mem|), mem)
      decreases |grid|
    {
      if grid != [] {
        var n := |grid| - 1;
        JobsFit(grid[..n], |mem|);
        GridIsLaunch(grid[..n], mem);
        LastProgram(grid[n], Jobs(grid[..n]), Jobs(grid), RunGrid(grid[..n], mem), mem);
      }
    }

    lemma LastProgram(p: Place, before: seq<Job>, jobs: seq<Job>, mid: seq<Byte>, mem: seq<Byte>)
      requires Owned(|mem|) && IsPlace(p) && AllFit(before, |mem|) && AllFit(jobs, |mem|) && |mid| == |mem|
      requires jobs == before + if plan[p.0].Some? then [JobOf(p.0, p.1, p.2)] else []
      requires mid == RunAll(Programs(before, |mem|), mem)
      ensures After(p, mid) == RunAll(Programs(jobs, |mem|), mem)
    {
      if plan[p.0].Some? {
        JobFits(p, |mem|);
        OneMoreJob(before, JobOf(p.0, p.1, p.2), mid, mem);
        AfterCopy(p, mid, RunAll(Programs(jobs, |mem|), mem));
      } else {
        assert jobs == before;
      }
    }

    lemma AfterCopy(p: Place, mid: seq<Byte>, result: seq<Byte>)
      requires Owned(|mid|) && IsPlace(p) && plan[p.0].Some? && JobOf(p.0, p.1, p.2).Valid(|mid|)
      requires result == Effect(JobOf(p.0, p.1, p.2), mid)
      ensures After(p, mid) == result
    {
    }
  }

  // ----- any order -----

  lemma StoredInGrid(w: Sweep, grid: seq<Place>, mem: seq<Byte>, p: Place, a: nat)
    requires w.Owned(|mem|) && w.Covers(grid) && w.IsPlace(p) && w.plan[p.0].Some?
    requires w.JobOf(p.0, p.1, p.2).Valid(|mem|) && StoresByte(w.JobOf(p.0, p.1, p.2), |mem|, a)
    ensures a < |mem| && w.RunGrid(grid, mem)[a] == w.After(p, mem)[a]
  {
    var j := w.JobOf(p.0, p.1, p.2);
    w.JobsOwned(grid, |mem|);
    w.JobOfPlace(grid, p);
    w.GridIsLaunch(grid, mem);
    var i: nat :| i < |w.Jobs(grid)| && w.Jobs(grid)[i] == j;
    WriterDecides(w.Jobs(grid), mem, i, a);
  }

  lemma KeptInGrid(w: Sweep, grid: seq<Place>, mem: seq<Byte>, a: nat)
    requires w.Owned(|mem|) && w.Covers(grid) && a < |mem|
    requires forall p: Place :: w.IsPlace(p) && w.plan[p.0].Some? ==>
               w.JobOf(p.0, p.1, p.2).Valid(|mem|) && !StoresByte(w.JobOf(p.0, p.1, p.2), |mem|, a)
    ensures w.RunGrid(grid, mem)[a] == mem[a]
  {
    var jobs := w.Jobs(grid);
    w.JobsOwned(grid, |mem|);
    w.GridIsLaunch(grid, mem);
    forall i | 0 <= i < |jobs| ensures !StoresByte(jobs[i], |mem|, a) {
      var p := w.PlaceOfJob(grid, i);
    }
    LaunchIsGrid(jobs, |mem|);
    RunAllSnapshot(Programs(jobs, |mem|), mem);
  }

  lemma SameByte(w: Sweep, grid: seq<Place>, other: seq<Place>, mem: seq<Byte>, a: nat)
    requires w.Owned(|mem|) && w.Covers(grid) && w.Covers(other) && a < |mem|
    ensures w.RunGrid(grid, mem)[a] == w.RunGrid(other, mem)[a]
  {
    forall p: Place | w.IsPlace(p) && w.plan[p.0].Some? ensures w.JobOf(p.0, p.1, p.2).Valid(|mem|) {
      w.JobFits(p, |mem|);
    }
    if p: Place :| w.IsPlace(p) && w.plan[p.0].Some? && StoresByte(w.JobOf(p.0, p.1, p.2), |mem|, a) {
      StoredInGrid(w, grid, mem, p, a);
      StoredInGrid(w, other, mem, p, a);
    } else {
      KeptInGrid(w, grid, mem, a);
      KeptInGrid(w, other, mem, a);
    }
  }

  /** In whatever order the programs of a launch run, they leave the same state memory. */
  lemma AnyGridOrder(w: Sweep, grid: seq<Place>, other: seq<Place>, mem: seq<Byte>)
    requires w.Owned(|mem|) && w.Covers(grid) && w.Covers(other)
    ensures w.RunGrid(grid, mem) == w.RunGrid(other, mem)
  {
    forall a | 0 <= a < |mem| ensures w.RunGrid(grid, mem)[a] == w.RunGrid(other, mem)[a] {
      SameByte(w, grid, other, mem, a);
    }
  }

  // ----- which layouts are owned -----

  /** Separate pools, views of the same pages, or the same tensor (seen from two groups). */
  predicate OrdinaryPair(s: State, t: State) { PoolsApart(s, t) || PageViews(s, t) || PageViews(t, s) || s == t }

  /** Two transfers in one tensor: neither block the second works on is the one the first is aimed at. */
  predicate OtherBlocks(s: State, row: seq<int>, m: Transfer, other: seq<int>, n: Transfer) {
    Lands(s, row, m) && Lands(s, other, n) ==>
      row[m.dst] != other[n.dst] && row[m.dst] != other[ReadColumn(KindOf(s), n.src, n.bias)]
  }

  lemma PairKeptApart(s: State, row: seq<int>, m: Transfer, t: State, other: seq<int>, n: Transfer, length: nat)
    requires Fits(s, row, m, length) && Fits(t, other, n, length) && OrdinaryPair(s, t)
    requires s == t ==> OtherBlocks(s, row, m, other, n)
    ensures MissesBlocks(s, row, m, t, other, n)
  {
    if Lands(s, row, m) && Lands(t, other, n) {
      LayoutApart(s, t, row[m.dst], other[n.dst]);
      LayoutApart(s, t, row[m.dst], other[ReadColumn(KindOf(t), n.src, n.bias)]);
    }
  }

  ghost predicate DestinationsUnshared(w: Sweep, k: nat, s: nat, k': nat, s': nat)
    requires w.Has(k, s) && w.Has(k', s')
  {
    w.plan[k].Some? && w.plan[k'].Some? && w.states[s] == w.states[s'] ==>
      OtherBlocks(w.states[s], w.RowOf(k, s), w.plan[k].value, w.RowOf(k', s'), w.plan[k'].value)
  }

  /** Launches laid out as usual, page views and shared pools included, with destinations of their own, are owned. */
  lemma OrdinarySweepOwned(w: Sweep, length: nat)
    requires w.Valid() && forall k: nat, s: nat :: w.Has(k, s) ==> w.FitsAt(k, s, length)
    requires forall s, s' :: 0 <= s < |w.states| && 0 <= s' < |w.states| && s != s' ==>
               OrdinaryPair(w.states[s], w.states[s'])
    requires forall k: nat, s: nat, k': nat, s': nat :: w.Has(k, s) && w.Has(k', s') && (k, s) != (k', s') ==>
               DestinationsUnshared(w, k, s, k', s')
    ensures w.Owned(length)
  {
    forall k: nat, s: nat, k': nat, s': nat | w.Has(k, s) && w.Has(k', s') && (k, s) != (k', s')
      ensures w.KeptApart(k, s, k', s')
    {
      assert w.FitsAt(k, s, length) && w.FitsAt(k', s', length) && DestinationsUnshared(w, k, s, k', s');
      assert OrdinaryPair(w.states[s], w.states[s']);
      if w.plan[k].Some? && w.plan[k'].Some? {
        PairKeptApart(w.states[s], w.RowOf(k, s), w.plan[k].value, w.states[s'], w.RowOf(k', s'), w.plan[k'].value,
                      length);
      }
    }
  }

  // ----- what the launch does to columns -----

  /** The transfer misses every block that holds one of these columns. */
  ghost predicate Shelters<T>(s: State, row: seq<int>, m: Transfer, t: State, other: seq<int>, cols: Columns<T>) {
    forall c :: c in cols && 0 <= c < |other| && t.GoodBlock(other[c]) ==> Misses(s, row, m, t, other[c])
  }

  /** The columns at entry `k` and state `s` are nobody else's business. */
  ghost predicate Sheltered<T>(w: Sweep, k: nat, s: nat, cols: Columns<T>)
    requires w.Has(k, s)
  {
    forall k': nat, s': nat :: w.Has(k', s') && (k', s') != (k, s) && w.plan[k'].Some? ==>
      Shelters(w.states[s'], w.RowOf(k', s'), w.plan[k'].value, w.states[s], w.RowOf(k, s), cols)
  }

  /** No column but `dst` itself is kept in the block of column `dst`. */
  ghost predicate OwnBlock<T>(row: seq<int>, cols: Columns<T>, dst: nat) {
    forall c :: c in cols && c != dst && 0 <= c < |row| && dst < |row| ==> row[c] != row[dst]
  }

  /** What becomes of columns whose entry has `move` to make; a destination outside the pool stops it. */
  function Moved<T>(kind: Kind, s: State, row: seq<int>, cols: Columns<T>, move: Option<Transfer>): Columns<T> {
    if move.Some? && move.value.dst < |row| && s.GoodBlock(row[move.value.dst]) then
      CopyState(kind, cols, move.value.src, move.value.dst, move.value.bias)
    else cols
  }

  /** What the launch needs of the columns at `(k, s)`. */
  ghost predicate Ready<T>(w: Sweep, length: nat, k: nat, s: nat, cols: Columns<T>) {
    && w.Owned(length) && w.Has(k, s) && w.states[s].Valid(length) && Sheltered(w, k, s, cols)
    && (w.plan[k].Some? ==> OwnBlock(w.RowOf(k, s), cols, w.plan[k].value.dst))
  }

  predicate Copied(w: Sweep, k: nat, s: nat)
    requires w.Has(k, s)
  {
    w.plan[k].Some? && Lands(w.states[s], w.RowOf(k, s), w.plan[k].value)
  }

  lemma JobSpares<T>(w: Sweep, length: nat, k: nat, s: nat, cols: Columns<T>, c: int, p: Place, j: Job)
    requires Ready(w, length, k, s, cols) && w.JobAt(p, j) && j.Valid(length)
    requires c in cols && 0 <= c < |w.RowOf(k, s)| && w.states[s].GoodBlock(w.RowOf(k, s)[c])
    requires (p.0, p.1) == (k, s) ==> !Copied(w, k, s)
    ensures Spares(j, w.states[s], w.RowOf(k, s)[c])
  {
    if (p.0, p.1) != (k, s) {
      assert w.Has(p.0, p.1);
      assert Shelters(w.states[p.1], w.RowOf(p.0, p.1), w.plan[p.0].value, w.states[s], w.RowOf(k, s), cols);
    }
  }

  /** When nothing is copied at `(k, s)`, no job writes its columns. */
  lemma NotAimedAt<T>(w: Sweep, grid: seq<Place>, length: nat, k: nat, s: nat, cols: Columns<T>, c: int)
    requires Ready(w, length, k, s, cols) && w.Covers(grid) && !Copied(w, k, s) && OwnBlocks(w.Jobs(grid), length)
    requires c in cols && 0 <= c < |w.RowOf(k, s)| && w.states[s].GoodBlock(w.RowOf(k, s)[c])
    ensures NobodysDestination(w.Jobs(grid), length, w.states[s], w.RowOf(k, s)[c])
  {
    forall i | 0 <= i < |w.Jobs(grid)| ensures Spares(w.Jobs(grid)[i], w.states[s], w.RowOf(k, s)[c]) {
      var p := w.PlaceOfJob(grid, i);
      JobSpares(w, length, k, s, cols, c, p, w.Jobs(grid)[i]);
    }
  }

  /** When something is, every other job leaves them alone. */
  lemma OthersLeaveAlone<T>(w: Sweep, grid: seq<Place>, length: nat, k: nat, s: nat, cols: Columns<T>, i: nat)
    requires Ready(w, length, k, s, cols) && w.Covers(grid) && w.plan[k].Some?
    requires OwnBlocks(w.Jobs(grid), length) && i < |w.Jobs(grid)| && w.JobOf(k, s, 0).Valid(length)
    ensures LeavesAlone(w.Jobs(grid)[i], length, w.JobOf(k, s, 0), cols)
  {
    var j := w.Jobs(grid)[i];
    var p := w.PlaceOfJob(grid, i);
    if (p.0, p.1) != (k, s) {
      forall c | c in cols && 0 <= c < |w.RowOf(k, s)| && w.states[s].GoodBlock(w.RowOf(k, s)[c])
        ensures Spares(j, w.states[s], w.RowOf(k, s)[c])
      {
        JobSpares(w, length, k, s, cols, c, p, j);
      }
    }
  }

  /** The tiles of a transfer are all launched, and what it needs of the launch holds. */
  lemma TransferLaunched<T>(w: Sweep, grid: seq<Place>, length: nat, k: nat, s: nat, cols: Columns<T>)
    requires Ready(w, length, k, s, cols) && w.Covers(grid) && w.plan[k].Some?
    ensures OwnBlocks(w.Jobs(grid), length) && w.JobOf(k, s, 0).Valid(length)
    ensures AllTiles(w.Jobs(grid), w.JobOf(k, s, 0))
    ensures forall i :: 0 <= i < |w.Jobs(grid)| ==> LeavesAlone(w.Jobs(grid)[i], length, w.JobOf(k, s, 0), cols)
  {
    w.JobsOwned(grid, length);
    w.JobFits((k, s, 0), length);
    forall t: nat | t < w.tiles ensures w.JobOf(k, s, 0).(tile := t) in w.Jobs(grid) {
      assert w.IsPlace((k, s, t));
      w.JobOfPlace(grid, (k, s, t));
    }
    forall i | 0 <= i < |w.Jobs(grid)| ensures LeavesAlone(w.Jobs(grid)[i], length, w.JobOf(k, s, 0), cols) {
      OthersLeaveAlone(w, grid, length, k, s, cols, i);
    }
  }

  lemma KeptColumns<T>(w: Sweep, grid: seq<Place>, mem: seq<Byte>, k: nat, s: nat, cols: Columns<T>,
                       enc: seq<T> -> seq<Byte>)
    requires Ready(w, |mem|, k, s, cols) && w.Covers(grid) && !Copied(w, k, s) && !w.states[s].Conv()
    requires Represents(mem, w.states[s], w.RowOf(k, s), cols, enc)
    ensures Represents(w.RunGrid(grid, mem), w.states[s], w.RowOf(k, s), cols, enc)
  {
    w.JobsOwned(grid, |mem|);
    w.GridIsLaunch(grid, mem);
    forall c | c in cols ensures Holds(w.RunGrid(grid, mem), w.states[s], w.RowOf(k, s), cols, enc, c) {
      assert Holds(mem, w.states[s], w.RowOf(k, s), cols, enc, c);
      NotAimedAt(w, grid, |mem|, k, s, cols, c);
      LaunchKeepsBlock(w.Jobs(grid), mem, w.states[s], w.RowOf(k, s)[c]);
    }
  }

  lemma KeptWindows<T>(w: Sweep, grid: seq<Place>, mem: seq<Byte>, k: nat, s: nat, cols: Columns<T>, need: nat,
                       enc: seq<T> -> seq<seq<Byte>>)
    requires Ready(w, |mem|, k, s, cols) && w.Covers(grid) && !Copied(w, k, s) && w.states[s].Conv()
    requires RepresentsWindows(mem, w.states[s], w.RowOf(k, s), cols, need, enc)
    ensures RepresentsWindows(w.RunGrid(grid, mem), w.states[s], w.RowOf(k, s), cols, need, enc)
  {
    w.JobsOwned(grid, |mem|);
    w.GridIsLaunch(grid, mem);
    forall c | c in cols
      ensures HoldsWindow(w.RunGrid(grid, mem), w.states[s], w.RowOf(k, s)[c], cols[c], need, enc)
    {
      NotAimedAt(w, grid, |mem|, k, s, cols, c);
      KeptCell(w.Jobs(grid), mem, w.states[s], w.RowOf(k, s)[c], cols[c], need, enc);
    }
  }

  lemma DestinationAlone<T>(mem: seq<Byte>, s: State, row: seq<int>, cols: Columns<T>, enc: seq<T> -> seq<Byte>,
                            dst: nat)
    requires s.Valid(|mem|) && !s.Conv() && Represents(mem, s, row, cols, enc)
    requires OwnBlock(row, cols, dst) && dst < |row|
    ensures forall c :: c in cols && c != dst ==> 0 <= c < |row| && row[c] != row[dst]
  {
    forall c | c in cols && c != dst ensures 0 <= c < |row| && row[c] != row[dst] {
      assert Holds(mem, s, row, cols, enc, c);
    }
  }

  lemma JobsRefine<T>(jobs: seq<Job>, mem: seq<Byte>, after: seq<Byte>, j: Job, cols: Columns<T>,
                      enc: seq<T> -> seq<Byte>)
    requires OwnBlocks(jobs, |mem|) && AllTiles(jobs, j) && j.Valid(|mem|) && j.Live() && !j.state.Conv()
    requires Represents(mem, j.state, j.row, cols, enc) && OwnBlock(j.row, cols, j.dstCol)
    requires forall i :: 0 <= i < |jobs| ==> LeavesAlone(jobs[i], |mem|, j, cols)
    requires |after| == |mem| && after == RunAll(Programs(jobs, |mem|), mem)
    ensures Represents(after, j.state, j.row, CopyState(Temporal, cols, j.srcCol, j.dstCol, j.bias), enc)
  {
    DestinationAlone(mem, j.state, j.row, cols, enc, j.dstCol);
    LaunchRefinesCopyState(jobs, mem, j, cols, enc);
  }

  lemma CopiedColumns<T>(w: Sweep, grid: seq<Place>, mem: seq<Byte>, k: nat, s: nat, cols: Columns<T>,
                         enc: seq<T> -> seq<Byte>)
    requires Ready(w, |mem|, k, s, cols) && w.Covers(grid) && Copied(w, k, s) && !w.states[s].Conv()
    requires Represents(mem, w.states[s], w.RowOf(k, s), cols, enc)
    ensures var m := w.plan[k].value;
            Represents(w.RunGrid(grid, mem), w.states[s], w.RowOf(k, s),
                       CopyState(Temporal, cols, m.src, m.dst, m.bias), enc)
  {
    TransferLaunched(w, grid, |mem|, k, s, cols);
    w.GridIsLaunch(grid, mem);
    JobsRefine(w.Jobs(grid), mem, w.RunGrid(grid, mem), w.JobOf(k, s, 0), cols, enc);
  }

  lemma CopiedWindows<T>(w: Sweep, grid: seq<Place>, mem: seq<Byte>, k: nat, s: nat, cols: Columns<T>, need: nat,
                         enc: seq<T> -> seq<seq<Byte>>)
    requires Ready(w, |mem|, k, s, cols) && w.Covers(grid) && Copied(w, k, s) && w.states[s].Conv()
    requires RepresentsWindows(mem, w.states[s], w.RowOf(k, s), cols, need, enc)
    ensures var m := w.plan[k].value;
            RepresentsWindows(w.RunGrid(grid, mem), w.states[s], w.RowOf(k, s),
                              CopyState(Conv, cols, m.src, m.dst, m.bias), need, enc)
  {
    TransferLaunched(w, grid, |mem|, k, s, cols);
    w.GridIsLaunch(grid, mem);
    LaunchRefinesWindows(w.Jobs(grid), mem, w.JobOf(k, s, 0), cols, need, enc);
  }

  /** Every order of the launch leaves, for each entry and temporal state, the columns its transfer makes. */
  lemma GridMovesColumns<T>(w: Sweep, grid: seq<Place>, mem: seq<Byte>, k: nat, s: nat, cols: Columns<T>,
                            enc: seq<T> -> seq<Byte>)
    requires Ready(w, |mem|, k, s, cols) && w.Covers(grid) && !w.states[s].Conv()
    requires Represents(mem, w.states[s], w.RowOf(k, s), cols, enc)
    ensures Represents(w.RunGrid(grid, mem), w.states[s], w.RowOf(k, s),
                       Moved(Temporal, w.states[s], w.RowOf(k, s), cols, w.plan[k]), enc)
  {
    if Copied(w, k, s) {
      CopiedColumns(w, grid, mem, k, s, cols, enc);
    } else {
      KeptColumns(w, grid, mem, k, s, cols, enc);
      NothingFound(w, mem, k, s, cols, enc);
    }
  }

  /** A transfer that does not go through leaves at most its destination unknown. */
  lemma NothingFound<T>(w: Sweep, mem: seq<Byte>, k: nat, s: nat, cols: Columns<T>, enc: seq<T> -> seq<Byte>)
    requires Ready(w, |mem|, k, s, cols) && !Copied(w, k, s) && !w.states[s].Conv()
    requires Represents(mem, w.states[s], w.RowOf(k, s), cols, enc)
    ensures var moved := Moved(Temporal, w.states[s], w.RowOf(k, s), cols, w.plan[k]);
            forall c :: c in moved ==> c in cols && moved[c] == cols[c]
  {
    if w.plan[k].Some? {
      var c := w.plan[k].value.src + w.plan[k].value.bias;
      assert w.FitsAt(k, s, |mem|);
      assert c in cols ==> Holds(mem, w.states[s], w.RowOf(k, s), cols, enc, c);
    }
  }

  /** ... and for each convolution state the windows. */
  lemma GridMovesWindows<T>(w: Sweep, grid: seq<Place>, mem: seq<Byte>, k: nat, s: nat, cols: Columns<T>, need: nat,
                            enc: seq<T> -> seq<seq<Byte>>)
    requires Ready(w, |mem|, k, s, cols) && w.Covers(grid) && w.states[s].Conv()
    requires RepresentsWindows(mem, w.states[s], w.RowOf(k, s), cols, need, enc)
    ensures RepresentsWindows(w.RunGrid(grid, mem), w.states[s], w.RowOf(k, s),
                              Moved(Conv, w.states[s], w.RowOf(k, s), cols, w.plan[k]), need, enc)
  {
    if Copied(w, k, s) {
      CopiedWindows(w, grid, mem, k, s, cols, need, enc);
    } else {
      KeptWindows(w, grid, mem, k, s, cols, need, enc);
      assert w.FitsAt(k, s, |mem|);
    }
  }

  /** How states are written down: a temporal block, or the rows of a window of `need` tokens. */
  datatype Code<!T> = Code(block: seq<T> -> seq<Byte>, need: nat, rows: seq<T> -> seq<seq<Byte>>)

  /** The row's blocks of state `s` hold these columns. */
  ghost predicate Shows<T>(mem: seq<Byte>, s: State, row: seq<int>, cols: Columns<T>, code: Code<T>)
    requires s.Valid(|mem|)
  {
    if s.Conv() then RepresentsWindows(mem, s, row, cols, code.need, code.rows)
    else Represents(mem, s, row, cols, code.block)
  }

  /** Every order of the launch leaves, for each entry and state, the columns its transfer makes. */
  lemma GridMoves<T>(w: Sweep, grid: seq<Place>, mem: seq<Byte>, k: nat, s: nat, cols: Columns<T>, code: Code<T>)
    requires Ready(w, |mem|, k, s, cols) && w.Covers(grid) && Shows(mem, w.states[s], w.RowOf(k, s), cols, code)
    ensures Shows(w.RunGrid(grid, mem), w.states[s], w.RowOf(k, s),
                  Moved(KindOf(w.states[s]), w.states[s], w.RowOf(k, s), cols, w.plan[k]), code)
  {
    if w.states[s].Conv() {
      GridMovesWindows(w, grid, mem, k, s, cols, code.need, code.rows);
    } else {
      GridMovesColumns(w, grid, mem, k, s, cols, code.block);
    }
  }
}
