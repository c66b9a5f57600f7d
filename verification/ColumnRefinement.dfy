// The byte-level launch does to memory what the column machine says it does to columns.
module ColumnRefinement {
  import opened Arithmetic
  import opened Memory
  import opened Wrappers
  import opened TiledCopy
  import opened StateCopy
  import opened AlignColumns

  /** The data bytes of one block of a temporal state. */
  ghost function BlockData(mem: seq<Byte>, s: State, id: nat): seq<Byte>
    requires s.Valid(|mem|) && id < s.numBlocks && !s.Conv()
  {
    BlockInside(s, |mem|, id);
    mem[s.BlockAddr(id)..s.BlockAddr(id) + s.inner * s.elem]
  }

  /** Column `c` is stored, in encoding `enc`, in the block its row entry names. */
  ghost predicate Holds<T>(mem: seq<Byte>, s: State, row: seq<int>, cols: Columns<T>, enc: seq<T> -> seq<Byte>, c: int)
    requires s.Valid(|mem|) && !s.Conv() && c in cols
  {
    0 <= c < |row| && s.GoodBlock(row[c]) && BlockData(mem, s, row[c]) == enc(cols[c].base)
  }

  /** Every column of `cols` is stored, in encoding `enc`, in the block its row entry names. */
  ghost predicate Represents<T>(mem: seq<Byte>, s: State, row: seq<int>, cols: Columns<T>, enc: seq<T> -> seq<Byte>)
    requires s.Valid(|mem|) && !s.Conv()
  {
    forall c :: c in cols ==> Holds(mem, s, row, cols, enc, c)
  }

  /** Job `k` writes no data of block `id`. */
  predicate Spares(k: Job, s: State, id: nat)
    requires k.dstCol < |k.row| && k.SrcIndex() < |k.row|
  {
    k.Live() ==> RangesApart(k.Dst(), k.state.Extent(), s.BlockAddr(id), s.Extent())
  }

  /** Job `k` is a tile of `j`'s copy, or spares every block that holds one of these columns. */
  ghost predicate LeavesAlone<T>(k: Job, length: nat, j: Job, cols: Columns<T>)
    requires k.Valid(length) && j.Valid(length)
  {
    k == j.(tile := k.tile) || forall c :: c in cols && 0 <= c < |j.row| && j.state.GoodBlock(j.row[c]) ==>
      Spares(k, j.state, j.row[c])
  }

  lemma OtherBlockByte(k: Job, length: nat, s: State, id: nat, a: nat)
    requires k.Valid(length) && k.Live() && Spares(k, s, id) && InRange(s.BlockAddr(id), s.Extent(), a)
    ensures !k.InData(a - k.Dst())
  {
    if k.InData(a - k.Dst()) {
      DataInside(k, length, a - k.Dst());
    }
  }

  ghost predicate DataMoved(mem: seq<Byte>, after: seq<Byte>, src: nat, dst: nat, size: nat) {
    |after| == |mem| && InMemory(|mem|, src, dst, size) && forall a :: dst <= a < dst + size ==>
      after[a] == mem[a - dst + src]
  }

  lemma SameData(mem: seq<Byte>, after: seq<Byte>, s: State, from: nat, to: nat)
    requires s.Valid(|mem|) && !s.Conv() && from < s.numBlocks && to < s.numBlocks
    requires DataMoved(mem, after, s.BlockAddr(from), s.BlockAddr(to), s.inner * s.elem)
    ensures BlockData(after, s, to) == BlockData(mem, s, from)
  {
  }

  lemma LaunchLength(jobs: seq<Job>, mem: seq<Byte>)
    requires OwnBlocks(jobs, |mem|)
    ensures |RunAll(Programs(jobs, |mem|), mem)| == |mem|
  {
    LaunchIsGrid(jobs, |mem|);
    RunAllSnapshot(Programs(jobs, |mem|), mem);
  }

  ghost predicate NobodysDestination(jobs: seq<Job>, length: nat, s: State, id: nat)
    requires OwnBlocks(jobs, length)
  {
    forall i :: 0 <= i < |jobs| ==> Spares(jobs[i], s, id)
  }

  lemma KeptByte(jobs: seq<Job>, mem: seq<Byte>, s: State, id: nat, a: nat)
    requires OwnBlocks(jobs, |mem|) && s.Valid(|mem|) && id < s.numBlocks && InRange(s.BlockAddr(id), s.Extent(), a)
    requires NobodysDestination(jobs, |mem|, s, id)
    ensures a < |mem| == |RunAll(Programs(jobs, |mem|), mem)| && RunAll(Programs(jobs, |mem|), mem)[a] == mem[a]
  {
    BlockInside(s, |mem|, id);
    forall i | 0 <= i < |jobs| ensures !(jobs[i].Live() && jobs[i].InData(a - jobs[i].Dst())) {
      if jobs[i].Live() {
        OtherBlockByte(jobs[i], |mem|, s, id, a);
      }
    }
    LaunchKeepsByte(jobs, mem, a);
  }

  /** A block that is nobody's destination keeps its data. */
  lemma LaunchKeepsBlock(jobs: seq<Job>, mem: seq<Byte>, s: State, id: nat)
    requires OwnBlocks(jobs, |mem|) && s.Valid(|mem|) && !s.Conv() && id < s.numBlocks
    requires NobodysDestination(jobs, |mem|, s, id)
    ensures var after := RunAll(Programs(jobs, |mem|), mem);
            |after| == |mem| && BlockData(after, s, id) == BlockData(mem, s, id)
  {
    LaunchLength(jobs, mem);
    var after := RunAll(Programs(jobs, |mem|), mem);
    BlockInside(s, |mem|, id);
    forall a: nat | s.BlockAddr(id) <= a < s.BlockAddr(id) + s.inner * s.elem
      ensures after[a] == mem[a - s.BlockAddr(id) + s.BlockAddr(id)]
    {
      KeptByte(jobs, mem, s, id, a);
    }
    SameData(mem, after, s, id, id);
  }

  lemma DataBounds(j: Job, length: nat)
    requires j.Valid(length) && j.Live() && !j.state.Conv()
    ensures j.Src() + j.state.inner * j.state.elem <= length && j.Dst() + j.state.inner * j.state.elem <= length
  {
    BlocksInMemory(j, length);
  }

  predicate ByteComes(mem: seq<Byte>, after: seq<Byte>, a: int, b: int) {
    0 <= a < |after| && 0 <= b < |mem| && after[a] == mem[b]
  }

  predicate Hits(j: Job, length: nat, dst: int, a: nat)
    requires j.state.Conv() ==> j.bias <= j.state.convWidth
  {
    a < length && j.InData(a - dst)
  }

  /** Every byte of the job's data range, its block at `dst`, comes from `delta` further on. */
  ghost predicate Delivers(mem: seq<Byte>, after: seq<Byte>, j: Job, dst: int, delta: int)
    requires j.state.Conv() ==> j.bias <= j.state.convWidth
  {
    |after| == |mem| && forall a: nat :: Hits(j, |mem|, dst, a) ==> ByteComes(mem, after, a, a + delta)
  }

  lemma HitDelivered(jobs: seq<Job>, mem: seq<Byte>, j: Job, a: nat)
    requires OwnBlocks(jobs, |mem|) && AllTiles(jobs, j) && j.Valid(|mem|) && j.Live() && Hits(j, |mem|, j.Dst(), a)
    ensures ByteComes(mem, RunAll(Programs(jobs, |mem|), mem), a, a + j.Delta())
  {
    LaunchMovesByte(jobs, mem, j, a);
  }

  lemma LaunchDelivers(jobs: seq<Job>, mem: seq<Byte>, j: Job)
    requires OwnBlocks(jobs, |mem|) && AllTiles(jobs, j) && j.Valid(|mem|) && j.Live()
    ensures Delivers(mem, RunAll(Programs(jobs, |mem|), mem), j, j.Dst(), j.Delta())
  {
    LaunchLength(jobs, mem);
    forall a: nat | Hits(j, |mem|, j.Dst(), a)
      ensures ByteComes(mem, RunAll(Programs(jobs, |mem|), mem), a, a + j.Delta())
    {
      HitDelivered(jobs, mem, j, a);
    }
  }

  ghost predicate AllInData(j: Job, lo: nat, n: nat)
    requires j.state.Conv() ==> j.bias <= j.state.convWidth
  {
    forall o: nat :: lo <= o < lo + n ==> j.InData(o)
  }

  lemma SliceDelivered(mem: seq<Byte>, after: seq<Byte>, j: Job, dst: nat, delta: int, lo: nat, n: nat, from: nat)
    requires j.state.Conv() ==> j.bias <= j.state.convWidth
    requires Delivers(mem, after, j, dst, delta) && AllInData(j, lo, n)
    requires from == dst + lo + delta && InMemory(|mem|, from, dst + lo, n)
    ensures DataMoved(mem, after, from, dst + lo, n)
  {
    forall a | dst + lo <= a < dst + lo + n ensures after[a] == mem[a - (dst + lo) + from] {
      assert j.InData(a - dst);
      assert Hits(j, |mem|, dst, a);
    }
  }

  lemma DataDelivered(mem: seq<Byte>, after: seq<Byte>, j: Job)
    requires j.Valid(|mem|) && j.Live() && !j.state.Conv() && Delivers(mem, after, j, j.Dst(), j.Delta())
    ensures |after| == |mem|
    ensures BlockData(after, j.state, j.row[j.dstCol]) == BlockData(mem, j.state, j.row[j.SrcIndex()])
  {
    DataBounds(j, |mem|);
    SliceDelivered(mem, after, j, j.Dst(), j.Delta(), 0, j.state.inner * j.state.elem, j.Src());
    SameData(mem, after, j.state, j.row[j.SrcIndex()], j.row[j.dstCol]);
  }

  /** The destination block of a live copy ends up with the old data of its source block. */
  lemma LaunchFillsDestination(jobs: seq<Job>, mem: seq<Byte>, j: Job)
    requires OwnBlocks(jobs, |mem|) && AllTiles(jobs, j) && j.Valid(|mem|) && j.Live() && !j.state.Conv()
    ensures var after := RunAll(Programs(jobs, |mem|), mem);
            |after| == |mem|
            && BlockData(after, j.state, j.row[j.dstCol]) == BlockData(mem, j.state, j.row[j.SrcIndex()])
  {
    LaunchDelivers(jobs, mem, j);
    DataDelivered(mem, RunAll(Programs(jobs, |mem|), mem), j);
  }

  lemma LeftAlone<T>(jobs: seq<Job>, length: nat, j: Job, cols: Columns<T>, c: int)
    requires OwnBlocks(jobs, length) && j.Valid(length) && j.Live()
    requires forall i :: 0 <= i < |jobs| ==> LeavesAlone(jobs[i], length, j, cols)
    requires c in cols && 0 <= c < |j.row| && j.state.GoodBlock(j.row[c]) && j.row[c] != j.row[j.dstCol]
    ensures NobodysDestination(jobs, length, j.state, j.row[c])
  {
    forall i | 0 <= i < |jobs| ensures Spares(jobs[i], j.state, j.row[c]) {
      assert LeavesAlone(jobs[i], length, j, cols);
      BlocksApart(j.state, j.row[j.dstCol], j.row[c]);
    }
  }

  lemma ColumnKept<T>(jobs: seq<Job>, mem: seq<Byte>, j: Job, cols: Columns<T>, c: int)
    requires OwnBlocks(jobs, |mem|) && j.Valid(|mem|) && j.Live() && !j.state.Conv()
    requires forall i :: 0 <= i < |jobs| ==> LeavesAlone(jobs[i], |mem|, j, cols)
    requires c in cols && 0 <= c < |j.row| && j.state.GoodBlock(j.row[c]) && j.row[c] != j.row[j.dstCol]
    ensures var after := RunAll(Programs(jobs, |mem|), mem);
            |after| == |mem| && BlockData(after, j.state, j.row[c]) == BlockData(mem, j.state, j.row[c])
  {
    LeftAlone(jobs, |mem|, j, cols, c);
    LaunchKeepsBlock(jobs, mem, j.state, j.row[c]);
  }

  lemma DestinationHeld<T>(mem: seq<Byte>, after: seq<Byte>, j: Job, cols: Columns<T>, enc: seq<T> -> seq<Byte>)
    requires j.Valid(|mem|) && j.Live() && !j.state.Conv() && |after| == |mem|
    requires Represents(mem, j.state, j.row, cols, enc)
    requires BlockData(after, j.state, j.row[j.dstCol]) == BlockData(mem, j.state, j.row[j.SrcIndex()])
    ensures var cols' := CopyState(Temporal, cols, j.srcCol, j.dstCol, j.bias);
            j.dstCol in cols' ==> Holds(after, j.state, j.row, cols', enc, j.dstCol)
  {
    var cols' := CopyState(Temporal, cols, j.srcCol, j.dstCol, j.bias);
    if j.srcCol + j.bias in cols {
      assert Holds(mem, j.state, j.row, cols, enc, j.srcCol + j.bias);
    } else if j.dstCol in cols {
      assert Holds(mem, j.state, j.row, cols, enc, j.dstCol);
    }
  }

  lemma ColumnHeld<T>(mem: seq<Byte>, after: seq<Byte>, j: Job, cols: Columns<T>, enc: seq<T> -> seq<Byte>, c: int)
    requires j.Valid(|mem|) && !j.state.Conv() && |after| == |mem| && c in cols
    requires Holds(mem, j.state, j.row, cols, enc, c)
    requires BlockData(after, j.state, j.row[c]) == BlockData(mem, j.state, j.row[c])
    ensures Holds(after, j.state, j.row, cols, enc, c)
  {
  }

  /** The launch carries a represented set of columns to the columns `CopyState` gives. */
  lemma LaunchRefinesCopyState<T>(jobs: seq<Job>, mem: seq<Byte>, j: Job, cols: Columns<T>, enc: seq<T> -> seq<Byte>)
    requires OwnBlocks(jobs, |mem|) && AllTiles(jobs, j) && j.Valid(|mem|) && j.Live() && !j.state.Conv()
    requires Represents(mem, j.state, j.row, cols, enc)
    requires forall c :: c in cols && c != j.dstCol ==> j.row[c] != j.row[j.dstCol]
    requires forall i :: 0 <= i < |jobs| ==> LeavesAlone(jobs[i], |mem|, j, cols)
    ensures var after := RunAll(Programs(jobs, |mem|), mem);
            |after| == |mem|
            && Represents(after, j.state, j.row, CopyState(Temporal, cols, j.srcCol, j.dstCol, j.bias), enc)
  {
    var after := RunAll(Programs(jobs, |mem|), mem);
    var cols' := CopyState(Temporal, cols, j.srcCol, j.dstCol, j.bias);
    LaunchFillsDestination(jobs, mem, j);
    DestinationHeld(mem, after, j, cols, enc);
    forall c | c in cols' ensures Holds(after, j.state, j.row, cols', enc, c) {
      if c != j.dstCol {
        ColumnKept(jobs, mem, j, cols, c);
        ColumnHeld(mem, after, j, cols, enc, c);
      }
    }
  }

  // ----- convolution windows, in both layouts -----

  /** A token-major window is one row; a dim-major one has a row for each dimension. */
  function RowCount(s: State): nat { if s.dimFirst then s.dimRows else 1 }

  function TokenUnit(s: State): nat { if s.dimFirst then s.elem else s.inner * s.elem }

  function PieceOffset(s: State, r: nat, from: nat): nat { r * s.rowStride + from * TokenUnit(s) }

  function PieceStart(s: State, id: nat, r: nat, from: nat): nat { s.BlockAddr(id) + PieceOffset(s, r, from) }

  function PieceSize(s: State, tokens: nat): nat { tokens * TokenUnit(s) }

  ghost function Slice(mem: seq<Byte>, start: nat, n: nat): seq<Byte>
    requires start + n <= |mem|
  {
    mem[start..start + n]
  }

  ghost predicate PieceIs(mem: seq<Byte>, start: nat, n: nat, piece: seq<Byte>) {
    start + n <= |mem| && Slice(mem, start, n) == piece
  }

  /** From token `from` on, the rows of the window in block `id` hold `rows`, `tokens` tokens each. */
  ghost predicate HoldsRows(mem: seq<Byte>, s: State, id: nat, from: nat, tokens: nat, rows: seq<seq<Byte>>) {
    |rows| == RowCount(s) && forall r: nat :: r < |rows| ==>
      PieceIs(mem, PieceStart(s, id, r, from), PieceSize(s, tokens), rows[r])
  }

  /**
   * A column's block holds its window: a state is `need` tokens of it, and the one
   * `k` tokens further is found `k` tokens on.
   */
  ghost predicate HoldsWindow<T>(mem: seq<Byte>, s: State, id: int, cell: Cell<T>, need: nat,
                                 enc: seq<T> -> seq<seq<Byte>>)
    requires s.Valid(|mem|) && s.Conv()
  {
    && s.GoodBlock(id) && need + |cell.look| <= s.convWidth
    && forall k: nat :: k <= |cell.look| ==> HoldsRows(mem, s, id, k, need, enc(cell.base + cell.look[..k]))
  }

  ghost predicate RepresentsWindows<T>(mem: seq<Byte>, s: State, row: seq<int>, cols: Columns<T>, need: nat,
                                       enc: seq<T> -> seq<seq<Byte>>)
    requires s.Valid(|mem|) && s.Conv()
  {
    forall c :: c in cols ==> 0 <= c < |row| && HoldsWindow(mem, s, row[c], cols[c], need, enc)
  }

  lemma WindowShift(k: nat, bias: nat, need: nat, width: nat, unit: nat)
    requires k + bias + need <= width
    ensures (k + bias) * unit == k * unit + bias * unit
    ensures k * unit + need * unit <= (width - bias) * unit
    ensures bias * unit + k * unit + need * unit <= width * unit
  {
    Product(unit, k + need, width - bias);
    Product(unit, bias + k + need, width);
    assert (k + need) * unit == k * unit + need * unit;
    assert (bias + k + need) * unit == bias * unit + k * unit + need * unit;
  }

  lemma RowRoom(r: nat, rows: nat, stride: nat, x: nat)
    requires r < rows && x <= stride
    ensures r * stride + x <= rows * stride
  {
    NextStart(stride, r, rows);
  }

  lemma PieceInside(s: State, length: nat, id: nat, r: nat, from: nat, tokens: nat)
    requires s.Valid(length) && s.Conv() && id < s.numBlocks && r < RowCount(s) && from + tokens <= s.convWidth
    ensures PieceOffset(s, r, from) + PieceSize(s, tokens) <= s.Extent()
    ensures PieceStart(s, id, r, from) + PieceSize(s, tokens) <= length
  {
    BlockInside(s, length, id);
    WindowShift(from, 0, tokens, s.convWidth, TokenUnit(s));
    if s.dimFirst {
      RowRoom(r, s.dimRows, s.rowStride, from * TokenUnit(s) + PieceSize(s, tokens));
    } else {
      assert r * s.rowStride == 0;
    }
  }

  lemma SameSlice(mem: seq<Byte>, after: seq<Byte>, src: nat, dst: nat, n: nat)
    requires DataMoved(mem, after, src, dst, n)
    ensures Slice(after, dst, n) == Slice(mem, src, n)
  {
    var x, y := after[dst..dst + n], mem[src..src + n];
    forall i | 0 <= i < n ensures x[i] == y[i] {
      assert x[i] == after[dst + i];
    }
  }

  lemma RowData(j: Job, length: nat, r: nat, x: nat, n: nat)
    requires j.Valid(length) && j.Live() && j.state.Conv() && j.state.dimFirst && r < j.state.dimRows
    requires x + n <= (j.state.convWidth - j.bias) * j.state.elem <= j.state.rowStride
    ensures AllInData(j, r * j.state.rowStride + x, n)
  {
    var stride := j.state.rowStride;
    forall o: nat | r * stride + x <= o < r * stride + x + n ensures j.InData(o) {
      RowRoom(r, j.state.dimRows, stride, stride);
      RemainderInRow(o, stride, r, o - r * stride, (j.state.convWidth - j.bias) * j.state.elem);
    }
  }

  /** The piece a copy replaces, and where it comes from. */
  lemma PieceData(j: Job, length: nat, r: nat, k: nat, need: nat)
    requires j.Valid(length) && j.Live() && j.state.Conv() && r < RowCount(j.state)
    requires k + j.bias + need <= j.state.convWidth
    ensures AllInData(j, PieceOffset(j.state, r, k), PieceSize(j.state, need))
    ensures PieceStart(j.state, j.row[j.srcCol], r, k + j.bias) == j.Dst() + PieceOffset(j.state, r, k) + j.Delta()
    ensures PieceStart(j.state, j.row[j.dstCol], r, k) == j.Dst() + PieceOffset(j.state, r, k)
  {
    var s := j.state;
    WindowShift(k, j.bias, need, s.convWidth, TokenUnit(s));
    if s.dimFirst {
      Product(s.elem, s.convWidth - j.bias, s.convWidth);
      RowData(j, length, r, k * TokenUnit(s), PieceSize(s, need));
    } else {
      assert r * s.rowStride == 0;
    }
  }

  lemma MovedPiece(mem: seq<Byte>, after: seq<Byte>, j: Job, dst: nat, delta: int, lo: nat, n: nat, from: nat, to: nat,
                   piece: seq<Byte>)
    requires j.state.Conv() ==> j.bias <= j.state.convWidth
    requires Delivers(mem, after, j, dst, delta) && AllInData(j, lo, n) && PieceIs(mem, from, n, piece)
    requires to == dst + lo && from == dst + lo + delta && to + n <= |mem|
    ensures PieceIs(after, to, n, piece)
  {
    SliceDelivered(mem, after, j, dst, delta, lo, n, from);
    SameSlice(mem, after, from, to, n);
  }

  lemma PieceDelivered(mem: seq<Byte>, after: seq<Byte>, j: Job, r: nat, k: nat, need: nat, piece: seq<Byte>)
    requires j.Valid(|mem|) && j.Live() && j.state.Conv() && Delivers(mem, after, j, j.Dst(), j.Delta())
    requires r < RowCount(j.state) && k + j.bias + need <= j.state.convWidth
    requires PieceIs(mem, PieceStart(j.state, j.row[j.srcCol], r, k + j.bias), PieceSize(j.state, need), piece)
    ensures PieceIs(after, PieceStart(j.state, j.row[j.dstCol], r, k), PieceSize(j.state, need), piece)
  {
    PieceData(j, |mem|, r, k, need);
    PieceInside(j.state, |mem|, j.row[j.dstCol], r, k, need);
    MovedPiece(mem, after, j, j.Dst(), j.Delta(), PieceOffset(j.state, r, k), PieceSize(j.state, need),
               PieceStart(j.state, j.row[j.srcCol], r, k + j.bias), PieceStart(j.state, j.row[j.dstCol], r, k), piece);
  }

  /** What arrives at the destination lay `bias` tokens further at the source. */
  lemma RowsDelivered(mem: seq<Byte>, after: seq<Byte>, j: Job, k: nat, need: nat, rows: seq<seq<Byte>>)
    requires j.Valid(|mem|) && j.Live() && j.state.Conv() && Delivers(mem, after, j, j.Dst(), j.Delta())
    requires k + j.bias + need <= j.state.convWidth && HoldsRows(mem, j.state, j.row[j.srcCol], k + j.bias, need, rows)
    ensures HoldsRows(after, j.state, j.row[j.dstCol], k, need, rows)
  {
    forall r: nat | r < |rows|
      ensures PieceIs(after, PieceStart(j.state, j.row[j.dstCol], r, k), PieceSize(j.state, need), rows[r])
    {
      PieceDelivered(mem, after, j, r, k, need, rows[r]);
    }
  }

  lemma LaunchKeepsSlice(jobs: seq<Job>, mem: seq<Byte>, s: State, id: nat, lo: nat, n: nat)
    requires OwnBlocks(jobs, |mem|) && s.Valid(|mem|) && id < s.numBlocks && lo + n <= s.Extent()
    requires NobodysDestination(jobs, |mem|, s, id)
    ensures DataMoved(mem, RunAll(Programs(jobs, |mem|), mem), s.BlockAddr(id) + lo, s.BlockAddr(id) + lo, n)
  {
    LaunchLength(jobs, mem);
    BlockInside(s, |mem|, id);
    var after, start := RunAll(Programs(jobs, |mem|), mem), s.BlockAddr(id) + lo;
    forall a | start <= a < start + n ensures after[a] == mem[a - start + start] {
      KeptByte(jobs, mem, s, id, a);
    }
  }

  lemma KeptPiece(jobs: seq<Job>, mem: seq<Byte>, s: State, id: nat, start: nat, lo: nat, n: nat, piece: seq<Byte>)
    requires OwnBlocks(jobs, |mem|) && s.Valid(|mem|) && id < s.numBlocks && NobodysDestination(jobs, |mem|, s, id)
    requires start == s.BlockAddr(id) + lo && lo + n <= s.Extent() && PieceIs(mem, start, n, piece)
    ensures PieceIs(RunAll(Programs(jobs, |mem|), mem), start, n, piece)
  {
    LaunchKeepsSlice(jobs, mem, s, id, lo, n);
    SameSlice(mem, RunAll(Programs(jobs, |mem|), mem), start, start, n);
  }

  lemma PieceKept(jobs: seq<Job>, mem: seq<Byte>, s: State, id: nat, r: nat, k: nat, need: nat, piece: seq<Byte>)
    requires OwnBlocks(jobs, |mem|) && s.Valid(|mem|) && s.Conv() && id < s.numBlocks && r < RowCount(s)
    requires k + need <= s.convWidth
    requires NobodysDestination(jobs, |mem|, s, id) && PieceIs(mem, PieceStart(s, id, r, k), PieceSize(s, need), piece)
    ensures PieceIs(RunAll(Programs(jobs, |mem|), mem), PieceStart(s, id, r, k), PieceSize(s, need), piece)
  {
    PieceInside(s, |mem|, id, r, k, need);
    KeptPiece(jobs, mem, s, id, PieceStart(s, id, r, k), PieceOffset(s, r, k), PieceSize(s, need), piece);
  }

  lemma RowsKept(jobs: seq<Job>, mem: seq<Byte>, s: State, id: nat, k: nat, need: nat, rows: seq<seq<Byte>>)
    requires OwnBlocks(jobs, |mem|) && s.Valid(|mem|) && s.Conv() && id < s.numBlocks && k + need <= s.convWidth
    requires NobodysDestination(jobs, |mem|, s, id) && HoldsRows(mem, s, id, k, need, rows)
    ensures HoldsRows(RunAll(Programs(jobs, |mem|), mem), s, id, k, need, rows)
  {
    var after := RunAll(Programs(jobs, |mem|), mem);
    forall r: nat | r < |rows| ensures PieceIs(after, PieceStart(s, id, r, k), PieceSize(s, need), rows[r]) {
      PieceKept(jobs, mem, s, id, r, k, need, rows[r]);
    }
  }

  lemma ShiftedCell<T>(mem: seq<Byte>, after: seq<Byte>, j: Job, cell: Cell<T>, need: nat,
                       enc: seq<T> -> seq<seq<Byte>>)
    requires j.Valid(|mem|) && j.Live() && j.state.Conv() && Delivers(mem, after, j, j.Dst(), j.Delta())
    requires HoldsWindow(mem, j.state, j.row[j.srcCol], cell, need, enc) && j.bias <= |cell.look|
    ensures |after| == |mem|
    ensures HoldsWindow(after, j.state, j.row[j.dstCol], Cell(cell.base + cell.look[..j.bias], cell.look[j.bias..]),
                        need, enc)
  {
    var shifted := Cell(cell.base + cell.look[..j.bias], cell.look[j.bias..]);
    forall k: nat | k <= |shifted.look|
      ensures HoldsRows(after, j.state, j.row[j.dstCol], k, need, enc(shifted.base + shifted.look[..k]))
    {
      assert shifted.base + shifted.look[..k] == cell.base + cell.look[..k + j.bias];
      RowsDelivered(mem, after, j, k, need, enc(cell.base + cell.look[..k + j.bias]));
    }
  }

  lemma KeptCell<T>(jobs: seq<Job>, mem: seq<Byte>, s: State, id: nat, cell: Cell<T>, need: nat,
                    enc: seq<T> -> seq<seq<Byte>>)
    requires OwnBlocks(jobs, |mem|) && s.Valid(|mem|) && s.Conv() && id < s.numBlocks
    requires NobodysDestination(jobs, |mem|, s, id) && HoldsWindow(mem, s, id, cell, need, enc)
    ensures var after := RunAll(Programs(jobs, |mem|), mem);
            |after| == |mem| && HoldsWindow(after, s, id, cell, need, enc)
  {
    LaunchLength(jobs, mem);
    forall k: nat | k <= |cell.look|
      ensures HoldsRows(RunAll(Programs(jobs, |mem|), mem), s, id, k, need, enc(cell.base + cell.look[..k]))
    {
      RowsKept(jobs, mem, s, id, k, need, enc(cell.base + cell.look[..k]));
    }
  }

  /** In either layout, the launch carries represented windows to the windows `CopyState` gives. */
  lemma LaunchRefinesWindows<T>(jobs: seq<Job>, mem: seq<Byte>, j: Job, cols: Columns<T>, need: nat,
                                enc: seq<T> -> seq<seq<Byte>>)
    requires OwnBlocks(jobs, |mem|) && AllTiles(jobs, j) && j.Valid(|mem|) && j.Live() && j.state.Conv()
    requires RepresentsWindows(mem, j.state, j.row, cols, need, enc)
    requires forall c :: c in cols && c != j.dstCol ==> j.row[c] != j.row[j.dstCol]
    requires forall i :: 0 <= i < |jobs| ==> LeavesAlone(jobs[i], |mem|, j, cols)
    ensures var after := RunAll(Programs(jobs, |mem|), mem);
            |after| == |mem|
            && RepresentsWindows(after, j.state, j.row, CopyState(Conv, cols, j.srcCol, j.dstCol, j.bias), need, enc)
  {
    LaunchDelivers(jobs, mem, j);
    var after := RunAll(Programs(jobs, |mem|), mem);
    var cols' := CopyState(Conv, cols, j.srcCol, j.dstCol, j.bias);
    forall c | c in cols' ensures 0 <= c < |j.row| && HoldsWindow(after, j.state, j.row[c], cols'[c], need, enc) {
      if c == j.dstCol {
        ShiftedCell(mem, after, j, cols[j.srcCol], need, enc);
      } else {
        LeftAlone(jobs, |mem|, j, cols, c);
        KeptCell(jobs, mem, j.state, j.row[c], cols[c], need, enc);
      }
    }
  }
}
