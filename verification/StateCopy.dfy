// One state tensor's block copy as the fused kernels launch it: a bounds guard in
// front of three layouts, split over tiles, for a whole batch in any order.
module StateCopy {
  import opened Arithmetic
  import opened Memory
  import opened TiledCopy
  import opened OverlapCopy
  import opened Wrappers

  /** Flattened metadata of one state tensor; `convWidth == 0` marks a temporal state. */
  datatype State = State(base: nat, blockStride: nat, elem: nat, inner: nat, convWidth: nat,
                         dimRows: nat, rowStride: nat, numBlocks: nat, dimFirst: bool) {
    predicate Conv() { convWidth > 0 }

    /** How many bytes of a block are this state's data; the stride from block to block may be larger. */
    function Extent(): nat {
      if !Conv() then inner * elem else if dimFirst then dimRows * rowStride else convWidth * (inner * elem)
    }

    /** The data of every block lies in memory, and one block's data ends before the next block's begins. */
    ghost predicate Valid(length: nat) {
      && (numBlocks > 0 ==> base + (numBlocks - 1) * blockStride + Extent() <= length)
      && Extent() <= blockStride
      && (Conv() && dimFirst ==> elem > 0 && rowStride > 0 && convWidth * elem <= rowStride)
    }

    predicate GoodBlock(id: int) { 0 <= id < numBlocks }

    function BlockAddr(id: nat): nat { base + id * blockStride }
  }

  /** One program: copy `row[srcCol]` (shifted by `bias`) to `row[dstCol]`, tile `tile` of `tiles`. */
  datatype Job = Job(state: State, row: seq<int>, srcCol: nat, dstCol: nat, bias: nat, tile: nat, tiles: nat,
                     block: nat) {
    /** Columns lie in the request's row, and a window is shifted by no more than its width. */
    ghost predicate Valid(length: nat) {
      && state.Valid(length) && tiles > 0 && block > 0 && tile < tiles
      && dstCol < |row| && SrcIndex() < |row|
      && (state.Conv() ==> bias <= state.convWidth)
    }

    /** A temporal state is selected by column, a window by a shift inside its column. */
    function SrcIndex(): nat { if state.Conv() then srcCol else srcCol + bias }

    /** The guard lets the copy through. */
    predicate Live()
      requires dstCol < |row| && SrcIndex() < |row|
    {
      state.GoodBlock(row[dstCol]) && state.GoodBlock(row[SrcIndex()])
    }

    /** The program meets a block id outside the pool and counts a hit. */
    predicate Hit()
      requires dstCol < |row| && SrcIndex() < |row|
    {
      !state.GoodBlock(row[dstCol]) || ((!state.Conv() || tile == 0) && !state.GoodBlock(row[SrcIndex()]))
    }

    function Dst(): nat
      requires dstCol < |row| && SrcIndex() < |row| && Live()
    {
      state.BlockAddr(row[dstCol])
    }

    function Src(): nat
      requires dstCol < |row| && SrcIndex() < |row| && Live()
    {
      state.BlockAddr(row[SrcIndex()])
    }

    function TokenBytes(): nat { if state.dimFirst then state.elem else state.inner * state.elem }

    /** How far behind its destination byte a source byte lies. */
    function Delta(): int
      requires dstCol < |row| && SrcIndex() < |row| && Live()
    {
      Src() - Dst() + if state.Conv() then bias * TokenBytes() else 0
    }

    function Window(): Rows
      requires dstCol < |row| && SrcIndex() < |row| && Live() && bias <= state.convWidth
    {
      Rows(Src(), Dst(), state.dimRows, state.rowStride, state.elem, state.convWidth - bias, bias)
    }

    /** Byte `o` of the destination block belongs to the data this copy replaces. */
    predicate InData(o: int)
      requires state.Conv() ==> bias <= state.convWidth
    {
      if !state.Conv() then 0 <= o < state.inner * state.elem
      else if state.dimFirst then
        0 <= o < state.dimRows * state.rowStride && o % state.rowStride < (state.convWidth - bias) * state.elem
      else 0 <= o < (state.convWidth - bias) * TokenBytes()
    }

    /** ... and is moved by this tile. */
    predicate Moves(o: int)
      requires dstCol < |row| && SrcIndex() < |row| && Live() && tiles > 0 && block > 0
      requires state.Conv() ==> bias <= state.convWidth
    {
      && InData(o)
      && tile == if state.Conv() then 0 else OwnerOf(Src(), Dst(), state.inner * state.elem, tiles, block, o)
    }
  }

  // ----- geometry -----

  /** No byte lies in both ranges. */
  predicate RangesApart(p: nat, n: nat, q: nat, m: nat) { n == 0 || m == 0 || p + n <= q || q + m <= p }

  lemma BlocksApart(s: State, i: nat, j: nat)
    requires i != j && s.Extent() <= s.blockStride
    ensures Apart(s.BlockAddr(i), s.BlockAddr(j), s.Extent())
  {
    if i < j {
      NextStart(s.blockStride, i, j);
    } else {
      NextStart(s.blockStride, j, i);
    }
  }

  lemma BlockInside(s: State, length: nat, id: nat)
    requires s.Valid(length) && id < s.numBlocks
    ensures s.BlockAddr(id) + s.Extent() <= length
  {
    Product(s.blockStride, id, s.numBlocks - 1);
  }

  lemma WindowSplit(width: nat, bias: nat, unit: nat)
    requires bias <= width
    ensures bias * unit + (width - bias) * unit == width * unit
    ensures bias > 0 ==> unit <= bias * unit
  {
    if bias > 0 {
      Product(unit, 1, bias);
    }
  }

  lemma RowInside(o: nat, rows: nat, stride: nat, room: nat)
    requires stride > 0 && o < rows * stride && o % stride + room < stride
    ensures o + room < rows * stride
  {
    Quotient(o, stride, rows);
    NextStart(stride, o / stride, rows);
  }

  /** Data lies in its block, and so does the byte it comes from. */
  lemma DataInside(j: Job, length: nat, o: int)
    requires j.Valid(length) && j.Live() && j.InData(o)
    ensures 0 <= o < j.state.Extent()
    ensures j.Src() <= j.Dst() + o + j.Delta() < j.Src() + j.state.Extent()
    ensures j.Src() + j.state.Extent() <= length && j.Dst() + j.state.Extent() <= length
  {
    var s := j.state;
    BlockInside(s, length, j.row[j.dstCol]);
    BlockInside(s, length, j.row[j.SrcIndex()]);
    if s.Conv() {
      WindowSplit(s.convWidth, j.bias, j.TokenBytes());
      if s.dimFirst {
        RowInside(o, s.dimRows, s.rowStride, j.bias * s.elem);
      }
    }
  }

  // ----- what one program does -----

  function Effect(j: Job, mem: seq<Byte>): (r: seq<Byte>)
    requires j.Valid(|mem|)
    ensures |r| == |mem|
  {
    if !j.Live() then mem
    else
      seq(|mem|, a requires 0 <= a < |mem| =>
        if j.Moves(a - j.Dst()) then (DataInside(j, |mem|, a - j.Dst()); mem[a + j.Delta()]) else mem[a])
  }

  lemma EffectAt(j: Job, mem: seq<Byte>, a: nat)
    requires j.Valid(|mem|) && a < |mem|
    ensures Effect(j, mem)[a]
            == if j.Live() && j.Moves(a - j.Dst()) then (DataInside(j, |mem|, a - j.Dst()); mem[a + j.Delta()])
               else mem[a]
  {
  }

  /** The data of source and destination lies in memory, and is the same or separate. */
  lemma BlocksInMemory(j: Job, length: nat)
    requires j.Valid(length) && j.Live()
    ensures InMemory(length, j.Src(), j.Dst(), j.state.Extent())
    ensures if j.row[j.dstCol] == j.row[j.SrcIndex()] then j.Src() == j.Dst()
              else Apart(j.Src(), j.Dst(), j.state.Extent())
  {
    BlockInside(j.state, length, j.row[j.dstCol]);
    BlockInside(j.state, length, j.row[j.SrcIndex()]);
    if j.row[j.dstCol] != j.row[j.SrcIndex()] {
      BlocksApart(j.state, j.row[j.dstCol], j.row[j.SrcIndex()]);
    }
  }

  method CopyTemporal(mem: array<Byte>, j: Job)
    requires j.Valid(mem.Length) && j.Live() && !j.state.Conv()
    modifies mem
    ensures mem[..] == Effect(j, old(mem[..]))
  {
    var size := j.state.inner * j.state.elem;
    BlocksInMemory(j, mem.Length);
    TileMovesItsBytes(mem[..], j.Src(), j.Dst(), size, j.tile, j.tiles, j.block);
    MemcpyTile(mem, j.Src(), j.Dst(), size, j.tile, j.tiles, j.block);
    TileIsEffect(j, old(mem[..]), mem[..]);
  }

  lemma TileIsEffect(j: Job, before: seq<Byte>, after: seq<Byte>)
    requires j.Valid(|before|) && j.Live() && !j.state.Conv()
    requires InMemory(|before|, j.Src(), j.Dst(), j.state.inner * j.state.elem)
    requires CopiedOffsets(before, after, j.Src(), j.Dst(), j.state.inner * j.state.elem,
                           OwnedOffsets(j.Src(), j.Dst(), j.state.inner * j.state.elem, j.tile, j.tiles, j.block))
    ensures after == Effect(j, before)
  {
    var size := j.state.inner * j.state.elem;
    var owned := OwnedOffsets(j.Src(), j.Dst(), size, j.tile, j.tiles, j.block);
    forall a: nat | a < |before| ensures after[a] == Effect(j, before)[a] {
      assert after[a] == ByteAfter(before, j.Src(), j.Dst(), size, owned, a);
      EffectAt(j, before, a);
    }
  }

  /** A window copied between blocks at once, or within its block token by token. */
  method CopyOrShift(mem: array<Byte>, srcBlock: nat, dst: nat, same: bool, bias: nat, tokens: nat, tokenBytes: nat,
                     block: nat)
    returns (ghost src: nat, ghost size: nat)
    requires block > 0 && InMemory(mem.Length, srcBlock, dst, (bias + tokens) * tokenBytes)
    requires if same then srcBlock == dst else Apart(srcBlock, dst, (bias + tokens) * tokenBytes)
    modifies mem
    ensures src == srcBlock + bias * tokenBytes && size == tokens * tokenBytes && InMemory(mem.Length, src, dst, size)
    ensures mem[..] == Move(old(mem[..]), src, dst, size)
  {
    WindowSplit(bias + tokens, bias, tokenBytes);
    src, size := srcBlock + bias * tokenBytes, tokens * tokenBytes;
    if !same || bias == 0 {
      CopyRegion(mem, srcBlock + bias * tokenBytes, dst, tokens * tokenBytes, block);
    } else {
      ShiftTokens(mem, srcBlock + bias * tokenBytes, dst, tokens, tokenBytes, block);
    }
  }

  lemma WindowInMemory(j: Job, length: nat)
    requires j.Valid(length) && j.Live() && j.state.Conv() && !j.state.dimFirst
    ensures var extent := (j.bias + (j.state.convWidth - j.bias)) * j.TokenBytes();
            && InMemory(length, j.Src(), j.Dst(), extent)
            && (if j.row[j.dstCol] == j.row[j.SrcIndex()] then j.Src() == j.Dst() else Apart(j.Src(), j.Dst(), extent))
  {
    BlocksInMemory(j, length);
    assert j.bias + (j.state.convWidth - j.bias) == j.state.convWidth;
  }

  method CopyWindow(mem: array<Byte>, j: Job)
    requires j.Valid(mem.Length) && j.Live() && j.state.Conv() && !j.state.dimFirst && j.tile == 0
    modifies mem
    ensures mem[..] == Effect(j, old(mem[..]))
  {
    ghost var before := mem[..];
    WindowInMemory(j, mem.Length);
    ghost var src, size := CopyOrShift(mem, j.Src(), j.Dst(), j.row[j.dstCol] == j.row[j.SrcIndex()],
                                       j.bias, j.state.convWidth - j.bias, j.TokenBytes(), j.block);
    MoveIsEffect(j, before, src, size);
  }

  lemma MoveIsEffect(j: Job, mem: seq<Byte>, src: nat, size: nat)
    requires j.Valid(|mem|) && j.Live() && j.state.Conv() && !j.state.dimFirst && j.tile == 0
    requires src == j.Src() + j.bias * j.TokenBytes() && size == (j.state.convWidth - j.bias) * j.TokenBytes()
    requires InMemory(|mem|, src, j.Dst(), size)
    ensures Move(mem, src, j.Dst(), size) == Effect(j, mem)
  {
    forall a: nat | a < |mem| ensures Move(mem, src, j.Dst(), size)[a] == Effect(j, mem)[a] {
      MovedAlike(j, mem, src, size, a);
    }
  }

  lemma MovedAlike(j: Job, mem: seq<Byte>, src: nat, size: nat, a: nat)
    requires j.Valid(|mem|) && j.Live() && j.state.Conv() && !j.state.dimFirst && j.tile == 0 && a < |mem|
    requires src == j.Src() + j.bias * j.TokenBytes() && size == (j.state.convWidth - j.bias) * j.TokenBytes()
    requires InMemory(|mem|, src, j.Dst(), size)
    ensures Move(mem, src, j.Dst(), size)[a] == Effect(j, mem)[a]
  {
    WindowMoves(j, |mem|, src, size, a);
    EffectAt(j, mem, a);
  }

  lemma WindowMoves(j: Job, length: nat, src: nat, size: nat, a: nat)
    requires j.Valid(length) && j.Live() && j.state.Conv() && !j.state.dimFirst && j.tile == 0
    requires src == j.Src() + j.bias * j.TokenBytes() && size == (j.state.convWidth - j.bias) * j.TokenBytes()
    ensures j.Moves(a - j.Dst()) <==> j.Dst() <= a < j.Dst() + size
    ensures a + j.Delta() == src + (a - j.Dst())
  {
  }

  method CopyDimRows(mem: array<Byte>, j: Job)
    requires j.Valid(mem.Length) && j.Live() && j.state.Conv() && j.state.dimFirst && j.tile == 0
    modifies mem
    ensures mem[..] == Effect(j, old(mem[..]))
  {
    WindowValid(j, mem.Length);
    ShiftIsEffect(j, mem[..]);
    ShiftRows(mem, j.Window(), j.block);
    ShiftedUnique(j.Window(), old(mem[..]), mem[..], Effect(j, old(mem[..])));
  }

  lemma WindowValid(j: Job, length: nat)
    requires j.Valid(length) && j.Live() && j.state.Conv() && j.state.dimFirst
    ensures j.Window().Valid(length)
  {
    BlocksInMemory(j, length);
  }

  /** A byte of the shifted window lies in exactly one of its cells. */
  lemma CellOfByte(g: Rows, length: nat, o: nat) returns (c: (nat, nat))
    requires g.Valid(length) && g.elem > 0 && g.stride > 0
    requires o < g.Span() && o % g.stride < g.tokens * g.elem
    ensures g.IsCell(c) && InCell(g, c, g.dst + o)
  {
    c := (o / g.stride, o % g.stride / g.elem);
    Quotient(o, g.stride, g.rows);
    Quotient(o % g.stride, g.elem, g.tokens);
  }

  lemma RemainderInRow(o: nat, stride: nat, r: nat, x: nat, room: nat)
    requires o == r * stride + x && x < room <= stride
    ensures o % stride < room
  {
    Slot(o, stride, r);
  }

  lemma ByteOfCell(g: Rows, length: nat, c: (nat, nat), a: nat)
    requires g.Valid(length) && g.elem > 0 && g.stride > 0 && g.IsCell(c) && InCell(g, c, a)
    ensures g.dst <= a && a - g.dst < g.Span() && (a - g.dst) % g.stride < g.tokens * g.elem
  {
    CellInside(g, length, c.0, c.1);
    NextStart(g.elem, c.1, g.tokens);
    Product(g.elem, g.tokens, g.tokens + g.bias);
    RemainderInRow(a - g.dst, g.stride, c.0, a - g.dst - c.0 * g.stride, g.tokens * g.elem);
  }

  lemma CellGetsSource(j: Job, mem: seq<Byte>, c: (nat, nat), a: nat)
    requires j.Valid(|mem|) && j.Live() && j.state.Conv() && j.state.dimFirst && j.tile == 0
    requires j.Window().Valid(|mem|) && j.Window().IsCell(c) && a < |mem| && InCell(j.Window(), c, a)
    ensures Taken(j.Window(), mem, c, a) == Some(Effect(j, mem)[a])
  {
    ByteOfCell(j.Window(), |mem|, c, a);
    DataInside(j, |mem|, a - j.Dst());
    SameDistance(j.Window(), c, a, j.Delta());
    EffectAt(j, mem, a);
  }

  lemma ShiftIsEffect(j: Job, mem: seq<Byte>)
    requires j.Valid(|mem|) && j.Live() && j.state.Conv() && j.state.dimFirst && j.tile == 0
    requires j.Window().Valid(|mem|)
    ensures Shifted(j.Window(), mem, Effect(j, mem), AllCells(j.Window()))
  {
    var g, after := j.Window(), Effect(j, mem);
    forall c, a | c in AllCells(g) && g.IsCell(c) && 0 <= a < |after| && InCell(g, c, a)
      ensures Taken(g, mem, c, a) == Some(after[a])
    {
      CellGetsSource(j, mem, c, a);
    }
    forall a | 0 <= a < |after| && (forall c :: c in AllCells(g) && g.IsCell(c) ==> !InCell(g, c, a))
      ensures after[a] == mem[a]
    {
      EffectAt(j, mem, a);
      if j.Moves(a - j.Dst()) {
        var c := CellOfByte(g, |mem|, a - j.Dst());
      }
    }
  }

  lemma SameDistance(g: Rows, c: (nat, nat), a: int, delta: int)
    requires delta == g.src - g.dst + g.bias * g.elem
    ensures g.SrcCell(c.0, c.1) + (a - g.DstCell(c.0, c.1)) == a + delta
  {
    assert (c.1 + g.bias) * g.elem == c.1 * g.elem + g.bias * g.elem;
  }

  /** The guarded copy, branch by branch as the kernels' shared body takes it. */
  method CopyStateBlock(mem: array<Byte>, j: Job) returns (hit: bool)
    requires j.Valid(mem.Length)
    modifies mem
    ensures mem[..] == Effect(j, old(mem[..]))
    ensures hit == j.Hit()
    ensures hit ==> mem[..] == old(mem[..])
  {
    var s := j.state;
    if !s.GoodBlock(j.row[j.dstCol]) {
      return true;
    }
    if s.dimFirst && s.Conv() {
      if j.tile > 0 {
        NoMoves(j, mem[..]);
        return false;
      }
      if !s.GoodBlock(j.row[j.srcCol]) {
        return true;
      }
      CopyDimRows(mem, j);
      return false;
    }
    if s.Conv() {
      if j.tile > 0 {
        NoMoves(j, mem[..]);
        return false;
      }
      if !s.GoodBlock(j.row[j.srcCol]) {
        return true;
      }
      CopyWindow(mem, j);
      return false;
    }
    if !s.GoodBlock(j.row[j.srcCol + j.bias]) {
      return true;
    }
    CopyTemporal(mem, j);
    return false;
  }

  lemma NoMoves(j: Job, mem: seq<Byte>)
    requires j.Valid(|mem|) && j.state.Conv() && j.tile > 0
    ensures Effect(j, mem) == mem
  {
    forall a: nat | a < |mem| ensures Effect(j, mem)[a] == mem[a] {
      EffectAt(j, mem, a);
    }
  }

  // ----- a whole launch, in any order -----

  ghost predicate StoresByte(j: Job, length: nat, a: int)
    requires j.Valid(length)
  {
    0 <= a < length && j.Live() && j.Moves(a - j.Dst())
  }

  ghost predicate LoadsByte(j: Job, length: nat, a: int)
    requires j.Valid(length)
  {
    j.Live() && StoresByte(j, length, a - j.Delta())
  }

  /** A job as a program: it reads and writes exactly the bytes it moves. */
  ghost function ProgramOf(j: Job, length: nat): Program
    requires j.Valid(length)
  {
    Program((mem: seq<Byte>) => if |mem| == length then Effect(j, mem) else mem,
            iset a: int | LoadsByte(j, length, a),
            iset a: int | StoresByte(j, length, a))
  }

  lemma ProgramRespects(j: Job, length: nat)
    requires j.Valid(length)
    ensures Respects(ProgramOf(j, length), length)
  {
    var p := ProgramOf(j, length);
    forall s: seq<Byte>, a | |s| == length && 0 <= a < length && a !in p.stores ensures p.run(s)[a] == s[a] {
      EffectAt(j, s, a);
    }
    forall s: seq<Byte>, t: seq<Byte> | |s| == length && |t| == length && AgreeOn(s, t, p.loads)
      ensures AgreeOn(p.run(s), p.run(t), p.stores)
    {
      forall a | 0 <= a < length && a in p.stores ensures p.run(s)[a] == p.run(t)[a] {
        EffectAt(j, s, a);
        EffectAt(j, t, a);
        DataInside(j, length, a - j.Dst());
        assert StoresByte(j, length, a) && a + j.Delta() in p.loads;
      }
    }
  }

  /** Two jobs are tiles of one copy. */
  predicate SameCopy(i: Job, j: Job) { i.(tile := j.tile) == j && i.tile != j.tile }

  /** No copy writes bytes that another one reads or writes. */
  ghost predicate OwnBlocks(jobs: seq<Job>, length: nat) {
    && (forall i :: 0 <= i < |jobs| ==> jobs[i].Valid(length))
    && (forall i, j :: 0 <= i < j < |jobs| ==> NoClash(jobs[i], jobs[j], length))
  }

  /** `i` writes no data of the blocks `j` works on. */
  predicate KeepsOff(i: Job, j: Job)
    requires i.dstCol < |i.row| && i.SrcIndex() < |i.row| && i.Live()
    requires j.dstCol < |j.row| && j.SrcIndex() < |j.row| && j.Live()
  {
    && RangesApart(i.Dst(), i.state.Extent(), j.Dst(), j.state.Extent())
    && RangesApart(i.Dst(), i.state.Extent(), j.Src(), j.state.Extent())
  }

  /** Copies that the guard stops never clash; tiles of one copy do not; others must keep off each other's data. */
  ghost predicate NoClash(i: Job, j: Job, length: nat)
    requires i.Valid(length) && j.Valid(length)
  {
    SameCopy(i, j) || !i.Live() || !j.Live() || (KeepsOff(i, j) && KeepsOff(j, i))
  }

  // ----- layouts whose data never meets -----

  predicate PoolsApart(s: State, t: State) {
    s.base + s.numBlocks * s.blockStride <= t.base || t.base + t.numBlocks * t.blockStride <= s.base
  }

  /** Views of the same pages: `s` lies before `t` in every page. */
  predicate PageViews(s: State, t: State) {
    s.blockStride == t.blockStride && s.base + s.Extent() <= t.base && t.base + t.Extent() <= s.base + s.blockStride
  }

  lemma PageViewsApart(s: State, t: State, x: nat, y: nat)
    requires PageViews(s, t)
    ensures RangesApart(s.BlockAddr(x), s.Extent(), t.BlockAddr(y), t.Extent())
  {
    if x < y {
      NextStart(s.blockStride, x, y);
    } else if y < x {
      NextStart(s.blockStride, y, x);
    }
  }

  lemma PoolBlocksApart(s: State, t: State, x: nat, y: nat)
    requires PoolsApart(s, t) && x < s.numBlocks && y < t.numBlocks && s.Extent() <= s.blockStride
    requires t.Extent() <= t.blockStride
    ensures RangesApart(s.BlockAddr(x), s.Extent(), t.BlockAddr(y), t.Extent())
  {
    NextStart(s.blockStride, x, s.numBlocks);
    NextStart(t.blockStride, y, t.numBlocks);
  }

  /** Separate pools, views of the same pages, or different blocks of one pool: the data of the two blocks is apart. */
  lemma LayoutApart(s: State, t: State, x: nat, y: nat)
    requires x < s.numBlocks && y < t.numBlocks && s.Extent() <= s.blockStride && t.Extent() <= t.blockStride
    requires PoolsApart(s, t) || PageViews(s, t) || PageViews(t, s) || (s == t && x != y)
    ensures RangesApart(s.BlockAddr(x), s.Extent(), t.BlockAddr(y), t.Extent())
  {
    if PoolsApart(s, t) {
      PoolBlocksApart(s, t, x, y);
    } else if PageViews(s, t) {
      PageViewsApart(s, t, x, y);
    } else if PageViews(t, s) {
      PageViewsApart(t, s, y, x);
    } else {
      BlocksApart(s, x, y);
    }
  }

  // ----- independence -----

  lemma TileDoesNotTouch(i: Job, j: Job, length: nat, a: int)
    requires i.Valid(length) && j.Valid(length) && SameCopy(i, j) && i.Live() && StoresByte(i, length, a)
    ensures a !in ProgramOf(j, length).stores && a !in ProgramOf(j, length).loads
  {
    BlocksInMemory(i, length);
    DataInside(i, length, a - i.Dst());
    if LoadsByte(j, length, a) {
      DataInside(j, length, a - j.Delta() - j.Dst());
    }
  }

  lemma TilesIndependent(i: Job, j: Job, length: nat)
    requires i.Valid(length) && j.Valid(length) && SameCopy(i, j)
    ensures Independent(ProgramOf(i, length), ProgramOf(j, length))
  {
    forall a | StoresByte(i, length, a) ensures a !in ProgramOf(j, length).stores && a !in ProgramOf(j, length).loads {
      TileDoesNotTouch(i, j, length, a);
    }
    forall a | StoresByte(j, length, a) ensures a !in ProgramOf(i, length).loads {
      TileDoesNotTouch(j, i, length, a);
    }
  }

  predicate InRange(p: nat, n: nat, a: int) { p <= a < p + n }

  lemma BytesInBlocks(j: Job, length: nat, a: int)
    requires j.Valid(length)
    ensures a in ProgramOf(j, length).stores ==> j.Live() && InRange(j.Dst(), j.state.Extent(), a)
    ensures a in ProgramOf(j, length).loads ==> j.Live() && InRange(j.Src(), j.state.Extent(), a)
  {
    if StoresByte(j, length, a) {
      DataInside(j, length, a - j.Dst());
    }
    if LoadsByte(j, length, a) {
      DataInside(j, length, a - j.Delta() - j.Dst());
    }
  }

  lemma CopiesIndependent(i: Job, j: Job, length: nat)
    requires i.Valid(length) && j.Valid(length) && NoClash(i, j, length)
    ensures Independent(ProgramOf(i, length), ProgramOf(j, length))
  {
    if SameCopy(i, j) {
      TilesIndependent(i, j, length);
      return;
    }
    var p, q := ProgramOf(i, length), ProgramOf(j, length);
    forall a ensures !(a in p.stores && (a in q.stores || a in q.loads)) && !(a in q.stores && a in p.loads) {
      BytesInBlocks(i, length, a);
      BytesInBlocks(j, length, a);
    }
  }

  ghost function Programs(jobs: seq<Job>, length: nat): (ps: seq<Program>)
    requires forall i :: 0 <= i < |jobs| ==> jobs[i].Valid(length)
    ensures |ps| == |jobs|
  {
    seq(|jobs|, i requires 0 <= i < |jobs| => ProgramOf(jobs[i], length))
  }

  lemma LaunchIsGrid(jobs: seq<Job>, length: nat)
    requires OwnBlocks(jobs, length)
    ensures Grid(Programs(jobs, length), length)
  {
    forall i | 0 <= i < |jobs| ensures Respects(Programs(jobs, length)[i], length) {
      ProgramRespects(jobs[i], length);
    }
    forall i, j | 0 <= i < j < |jobs| ensures Independent(Programs(jobs, length)[i], Programs(jobs, length)[j]) {
      CopiesIndependent(jobs[i], jobs[j], length);
    }
  }

  /** However the (request, state, tile) programs of a launch are ordered, they leave the same memory. */
  lemma LaunchOrderIrrelevant(jobs: seq<Job>, order: seq<nat>, mem: seq<Byte>)
    requires OwnBlocks(jobs, |mem|) && IsOrder(order, |jobs|)
    ensures RunAll(Launch(Programs(jobs, |mem|), order), mem) == RunAll(Programs(jobs, |mem|), mem)
  {
    LaunchIsGrid(jobs, |mem|);
    AnyOrderSameMemory(Programs(jobs, |mem|), order, mem);
  }

  /** Every tile of `j`'s copy is launched. */
  ghost predicate AllTiles(jobs: seq<Job>, j: Job) {
    forall t: nat :: t < j.tiles ==> j.(tile := t) in jobs
  }

  /**
   * Whatever ids the block table holds, as long as the copies the guard lets through keep off
   * each other's data: such a copy puts the right source byte at every byte of its data range ...
   */
  lemma LaunchMovesByte(jobs: seq<Job>, mem: seq<Byte>, j: Job, a: nat)
    requires OwnBlocks(jobs, |mem|) && AllTiles(jobs, j)
    requires j.Valid(|mem|) && j.Live() && a < |mem| && j.InData(a - j.Dst())
    ensures 0 <= a + j.Delta() < |mem|
    ensures |RunAll(Programs(jobs, |mem|), mem)| == |mem| && RunAll(Programs(jobs, |mem|), mem)[a] == mem[a + j.Delta()]
  {
    DataInside(j, |mem|, a - j.Dst());
    var k := TileFor(j, |mem|, a);
    assert k in jobs;
    var i: nat :| i < |jobs| && jobs[i] == k;
    WriterDecides(jobs, mem, i, a);
    StoredByte(k, mem, a);
  }

  lemma WriterDecides(jobs: seq<Job>, mem: seq<Byte>, i: nat, a: nat)
    requires OwnBlocks(jobs, |mem|) && i < |jobs| && StoresByte(jobs[i], |mem|, a)
    ensures var ps := Programs(jobs, |mem|);
            |RunAll(ps, mem)| == |mem| == |ps[i].run(mem)| && RunAll(ps, mem)[a] == ps[i].run(mem)[a]
  {
    var ps := Programs(jobs, |mem|);
    LaunchIsGrid(jobs, |mem|);
    RunAllSnapshot(ps, mem);
    assert AgreeOn(RunAll(ps, mem), ps[i].run(mem), ps[i].stores);
  }

  lemma StoredByte(j: Job, mem: seq<Byte>, a: nat)
    requires j.Valid(|mem|) && StoresByte(j, |mem|, a)
    ensures 0 <= a + j.Delta() < |mem|
    ensures |ProgramOf(j, |mem|).run(mem)| == |mem| && ProgramOf(j, |mem|).run(mem)[a] == mem[a + j.Delta()]
  {
    DataInside(j, |mem|, a - j.Dst());
    EffectAt(j, mem, a);
  }

  /** ... and a byte no such copy is aimed at keeps its value. */
  lemma LaunchKeepsByte(jobs: seq<Job>, mem: seq<Byte>, a: nat)
    requires OwnBlocks(jobs, |mem|) && a < |mem|
    requires forall i :: 0 <= i < |jobs| ==> !(jobs[i].Live() && jobs[i].InData(a - jobs[i].Dst()))
    ensures |RunAll(Programs(jobs, |mem|), mem)| == |mem| && RunAll(Programs(jobs, |mem|), mem)[a] == mem[a]
  {
    LaunchIsGrid(jobs, |mem|);
    RunAllSnapshot(Programs(jobs, |mem|), mem);
  }

  lemma TileFor(j: Job, length: nat, a: nat) returns (k: Job)
    requires j.Valid(length) && j.Live() && a < length && j.InData(a - j.Dst())
    ensures k == j.(tile := k.tile) && k.tile < j.tiles && k.Valid(length) && k.Live() && StoresByte(k, length, a)
    ensures k.Dst() == j.Dst() && k.Delta() == j.Delta()
  {
    if j.state.Conv() {
      k := j.(tile := 0);
    } else {
      var size := j.state.inner * j.state.elem;
      EachByteOnce(j.Src(), j.Dst(), size, j.tiles, j.block, a - j.Dst());
      k := j.(tile := OwnerOf(j.Src(), j.Dst(), size, j.tiles, j.block, a - j.Dst()));
    }
  }

  /** A copy that is not let through raises the counter in at least one of its tiles, and writes nothing in any. */
  lemma SkippedCopyIsCounted(j: Job, mem: seq<Byte>)
    requires j.Valid(|mem|)
    ensures Effect(j, mem) == mem || j.Live()
    ensures j.Live() <==> forall t: nat :: t < j.tiles ==> !j.(tile := t).Hit()
  {
    if !j.Live() {
      assert j.(tile := 0).Hit();
    }
  }
}
