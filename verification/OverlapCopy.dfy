// Copies whose source and destination may share bytes: the token loop of the
// token-major convolution window, the row loop of the dim-major one, and the
// chunked batch kernel.
module OverlapCopy {
  import opened Arithmetic
  import opened Memory
  import opened TiledCopy
  import opened Wrappers

  // ----- token-major window -----

  /** A copy continued behind another one is the longer copy, as long as the first did not eat its source. */
  lemma MoveExtends(mem: seq<Byte>, src: nat, dst: nat, len: nat, more: nat)
    requires InMemory(|mem|, src, dst, len + more)
    requires dst <= src || src + len + more <= dst
    ensures Move(Move(mem, src, dst, len), src + len, dst + len, more) == Move(mem, src, dst, len + more)
  {
  }

  /** The single-tile copy between separate or identical regions. */
  method CopyRegion(mem: array<Byte>, src: nat, dst: nat, size: nat, block: nat)
    requires block > 0 && InMemory(mem.Length, src, dst, size)
    requires src == dst || Apart(src, dst, size)
    modifies mem
    ensures mem[..] == Move(old(mem[..]), src, dst, size)
  {
    OneTileCopies(mem[..], src, dst, size, block);
    MemcpyTile(mem, src, dst, size, 0, 1, block);
  }

  method ShiftOneToken(mem: array<Byte>, src: nat, dst: nat, at: nat, tokenBytes: nat, block: nat,
                       ghost before: seq<Byte>)
    requires block > 0 && |before| == mem.Length && InMemory(mem.Length, src, dst, at + tokenBytes)
    requires dst + tokenBytes <= src
    requires mem[..] == Move(before, src, dst, at)
    modifies mem
    ensures mem[..] == Move(before, src, dst, at + tokenBytes)
  {
    CopyRegion(mem, src + at, dst + at, tokenBytes, block);
    MoveExtends(before, src, dst, at, tokenBytes);
  }

  /** Tokens copied from low to high, each through the single-tile copy. */
  method ShiftTokens(mem: array<Byte>, src: nat, dst: nat, tokens: nat, tokenBytes: nat, block: nat)
    requires block > 0 && InMemory(mem.Length, src, dst, tokens * tokenBytes)
    requires dst + tokenBytes <= src
    modifies mem
    ensures mem[..] == Move(old(mem[..]), src, dst, tokens * tokenBytes)
  {
    ghost var before := mem[..];
    var at := 0;
    for token := 0 to tokens
      invariant at == token * tokenBytes
      invariant InMemory(mem.Length, src, dst, at) && mem[..] == Move(before, src, dst, at)
    {
      NextStart(tokenBytes, token, tokens);
      ShiftOneToken(mem, src, dst, at, tokenBytes, block, before);
      at := at + tokenBytes;
    }
  }

  // ----- dim-major window: one lane per row -----

  datatype Rows = Rows(src: nat, dst: nat, rows: nat, stride: nat, elem: nat, tokens: nat, bias: nat) {
    function At(r: nat, t: nat): nat { r * stride + t * elem }

    function Span(): nat { rows * stride }

    function SrcCell(r: nat, t: nat): nat { src + At(r, t + bias) }

    function DstCell(r: nat, t: nat): nat { dst + At(r, t) }

    predicate IsCell(c: (nat, nat)) { c.0 < rows && c.1 < tokens }

    /** Rows do not run into each other, both blocks fit, and the blocks are the same or separate. */
    ghost predicate Valid(length: nat) {
      && (tokens + bias) * elem <= stride
      && InMemory(length, src, dst, Span())
      && (src == dst || Apart(src, dst, Span()))
    }
  }

  lemma CellInside(g: Rows, length: nat, r: nat, t: nat)
    requires g.Valid(length) && r < g.rows && t < g.tokens + g.bias
    ensures g.At(r, t) + g.elem <= g.Span()
  {
    NextStart(g.elem, t, g.tokens + g.bias);
    NextStart(g.stride, r, g.rows);
  }

  lemma OffsetsApart(stride: nat, elem: nat, width: nat, r: nat, t: nat, r': nat, t': nat)
    requires width * elem <= stride && t < width && t' < width && (r, t) != (r', t')
    ensures Apart(r * stride + t * elem, r' * stride + t' * elem, elem)
  {
    NextStart(elem, t, width);
    NextStart(elem, t', width);
    if r < r' {
      NextStart(stride, r, r');
    } else if r' < r {
      NextStart(stride, r', r);
    } else if t < t' {
      NextStart(elem, t, t');
    } else {
      NextStart(elem, t', t);
    }
  }

  lemma CellsApart(g: Rows, length: nat, r: nat, t: nat, r': nat, t': nat)
    requires g.Valid(length) && r < g.rows && r' < g.rows && t < g.tokens + g.bias && t' < g.tokens + g.bias
    requires (r, t) != (r', t')
    ensures Apart(g.At(r, t), g.At(r', t'), g.elem)
  {
    OffsetsApart(g.stride, g.elem, g.tokens + g.bias, r, t, r', t');
  }

  ghost predicate InCell(g: Rows, c: (nat, nat), a: int) {
    g.DstCell(c.0, c.1) <= a < g.DstCell(c.0, c.1) + g.elem
  }

  /** The cells in `done` hold what their sources held in `before`; every other byte is as it was. */
  ghost predicate Shifted(g: Rows, before: seq<Byte>, after: seq<Byte>, done: iset<(nat, nat)>)
    requires g.Valid(|before|)
  {
    && |after| == |before|
    && (forall c, a :: c in done && g.IsCell(c) && 0 <= a < |after| && InCell(g, c, a) ==>
          Taken(g, before, c, a) == Some(after[a]))
    && (forall a :: 0 <= a < |after| && (forall c :: c in done && g.IsCell(c) ==> !InCell(g, c, a)) ==>
          after[a] == before[a])
  }

  ghost function Taken(g: Rows, before: seq<Byte>, c: (nat, nat), a: int): Option<Byte> {
    var from := g.SrcCell(c.0, c.1) + (a - g.DstCell(c.0, c.1));
    if 0 <= from < |before| then Some(before[from]) else None
  }

  lemma FromOtherBlock(src: nat, dst: nat, span: nat, p: nat, q: nat, elem: nat, a: nat)
    requires src == dst || Apart(src, dst, span)
    requires p + elem <= span && q + elem <= span && Apart(p, q, elem)
    requires src + p <= a < src + p + elem
    ensures !(dst + q <= a < dst + q + elem)
  {
  }

  lemma NotInSource(g: Rows, length: nat, r: nat, t: nat, a: nat, c: (nat, nat))
    requires g.Valid(length) && g.IsCell((r, t)) && g.IsCell(c) && (c.0 == r ==> c.1 < t)
    requires g.SrcCell(r, t) <= a < g.SrcCell(r, t) + g.elem
    ensures !InCell(g, c, a)
  {
    CellInside(g, length, r, t + g.bias);
    CellInside(g, length, c.0, c.1);
    CellsApart(g, length, r, t + g.bias, c.0, c.1);
    FromOtherBlock(g.src, g.dst, g.Span(), g.At(r, t + g.bias), g.At(c.0, c.1), g.elem, a);
  }

  lemma SourceUntouched(g: Rows, before: seq<Byte>, mid: seq<Byte>, done: iset<(nat, nat)>, r: nat, t: nat, a: nat)
    requires g.Valid(|before|) && g.IsCell((r, t)) && Shifted(g, before, mid, done)
    requires forall u: nat :: (r, u) in done ==> u < t
    requires g.SrcCell(r, t) <= a < g.SrcCell(r, t) + g.elem
    ensures a < |before| && mid[a] == before[a]
  {
    CellInside(g, |before|, r, t + g.bias);
    forall c | c in done && g.IsCell(c) ensures !InCell(g, c, a) {
      assert (c.0, c.1) in done;
      NotInSource(g, |before|, r, t, a, c);
    }
  }

  lemma OtherCell(g: Rows, length: nat, r: nat, t: nat, c: (nat, nat), a: nat)
    requires g.Valid(length) && g.IsCell((r, t)) && g.IsCell(c) && c != (r, t) && InCell(g, c, a)
    ensures !InCell(g, (r, t), a)
  {
    CellsApart(g, length, r, t, c.0, c.1);
  }

  lemma Arrives(g: Rows, before: seq<Byte>, mid: seq<Byte>, c: (nat, nat), a: nat)
    requires |mid| == |before| && InMemory(|before|, g.SrcCell(c.0, c.1), g.DstCell(c.0, c.1), g.elem)
    requires a < |before| && InCell(g, c, a)
    requires var x := g.SrcCell(c.0, c.1) + (a - g.DstCell(c.0, c.1)); mid[x] == before[x]
    ensures Taken(g, before, c, a) == Some(Move(mid, g.SrcCell(c.0, c.1), g.DstCell(c.0, c.1), g.elem)[a])
  {
  }

  lemma CellFollows(g: Rows, before: seq<Byte>, mid: seq<Byte>, done: iset<(nat, nat)>, r: nat, t: nat, c: (nat, nat),
                    a: nat)
    requires g.Valid(|before|) && g.IsCell((r, t)) && g.IsCell(c) && Shifted(g, before, mid, done)
    requires forall u: nat :: (r, u) in done ==> u < t
    requires InMemory(|before|, g.SrcCell(r, t), g.DstCell(r, t), g.elem)
    requires (c in done || c == (r, t)) && a < |before| && InCell(g, c, a)
    ensures Taken(g, before, c, a) == Some(Move(mid, g.SrcCell(r, t), g.DstCell(r, t), g.elem)[a])
  {
    if c == (r, t) {
      SourceUntouched(g, before, mid, done, r, t, g.SrcCell(r, t) + (a - g.DstCell(r, t)));
      Arrives(g, before, mid, c, a);
    } else {
      OtherCell(g, |before|, r, t, c, a);
    }
  }

  /** One lane moves one element; its row has only been moved below. */
  lemma ShiftOneCell(g: Rows, before: seq<Byte>, mid: seq<Byte>, done: iset<(nat, nat)>, r: nat, t: nat)
    requires g.Valid(|before|) && g.IsCell((r, t)) && Shifted(g, before, mid, done)
    requires forall u: nat :: (r, u) in done ==> u < t
    ensures InMemory(|before|, g.SrcCell(r, t), g.DstCell(r, t), g.elem)
    ensures Shifted(g, before, Move(mid, g.SrcCell(r, t), g.DstCell(r, t), g.elem), done + iset{(r, t)})
  {
    CellInside(g, |before|, r, t);
    CellInside(g, |before|, r, t + g.bias);
    var after := Move(mid, g.SrcCell(r, t), g.DstCell(r, t), g.elem);
    var more := done + iset{(r, t)};
    forall c, a | c in more && g.IsCell(c) && 0 <= a < |after| && InCell(g, c, a)
      ensures Taken(g, before, c, a) == Some(after[a])
    {
      CellFollows(g, before, mid, done, r, t, c, a);
    }
    forall a | 0 <= a < |after| && (forall c :: c in more && g.IsCell(c) ==> !InCell(g, c, a))
      ensures after[a] == before[a]
    {
      assert (r, t) in more;
      assert after[a] == mid[a];
    }
  }

  ghost function AllCells(g: Rows): iset<(nat, nat)> { iset c: (nat, nat) | g.IsCell(c) }

  /** At most one memory is the finished shift of a given one. */
  lemma ShiftedUnique(g: Rows, before: seq<Byte>, x: seq<Byte>, y: seq<Byte>)
    requires g.Valid(|before|) && Shifted(g, before, x, AllCells(g)) && Shifted(g, before, y, AllCells(g))
    ensures x == y
  {
    forall a | 0 <= a < |before| ensures x[a] == y[a] {
      if c :| c in AllCells(g) && g.IsCell(c) && InCell(g, c, a) {
        assert Taken(g, before, c, a) == Some(x[a]) == Some(y[a]);
      }
    }
  }

  /** `cells` moves every cell once, each row's tokens from low to high: lanes keep their rows. */
  ghost predicate LanesInOrder(g: Rows, cells: seq<(nat, nat)>) {
    && (forall i :: 0 <= i < |cells| ==> g.IsCell(cells[i]))
    && (forall i, j :: 0 <= i < j < |cells| && cells[i].0 == cells[j].0 ==> cells[i].1 < cells[j].1)
    && (forall c: (nat, nat) :: g.IsCell(c) ==> c in cells)
  }

  ghost function RunCells(g: Rows, mem: seq<Byte>, cells: seq<(nat, nat)>): (r: seq<Byte>)
    requires g.Valid(|mem|) && forall i :: 0 <= i < |cells| ==> g.IsCell(cells[i])
    ensures |r| == |mem|
    decreases |cells|
  {
    if cells == [] then mem
    else
      var c := cells[|cells| - 1];
      assert g.IsCell(c);
      CellInside(g, |mem|, c.0, c.1);
      CellInside(g, |mem|, c.0, c.1 + g.bias);
      Move(RunCells(g, mem, cells[..|cells| - 1]), g.SrcCell(c.0, c.1), g.DstCell(c.0, c.1), g.elem)
  }

  lemma {:induction false} RunCellsShifts(g: Rows, mem: seq<Byte>, cells: seq<(nat, nat)>)
    requires g.Valid(|mem|) && forall i :: 0 <= i < |cells| ==> g.IsCell(cells[i])
    requires forall i, j :: 0 <= i < j < |cells| && cells[i].0 == cells[j].0 ==> cells[i].1 < cells[j].1
    ensures Shifted(g, mem, RunCells(g, mem, cells), iset c | c in cells)
    decreases |cells|
  {
    if cells != [] {
      var front, c := cells[..|cells| - 1], cells[|cells| - 1];
      RunCellsShifts(g, mem, front);
      var done := iset d | d in front;
      forall u: nat | (c.0, u) in done ensures u < c.1 {
        var i :| 0 <= i < |front| && front[i] == (c.0, u);
        assert cells[i] == front[i];
      }
      ShiftOneCell(g, mem, RunCells(g, mem, front), done, c.0, c.1);
      assert cells == front + [c];
      assert (iset d | d in cells) == done + iset{(c.0, c.1)};
    }
  }

  /** Rows may advance in parallel at any speeds: every row still gets the copy of its old window. */
  lemma AnyLaneOrderShifts(g: Rows, mem: seq<Byte>, cells: seq<(nat, nat)>)
    requires g.Valid(|mem|) && LanesInOrder(g, cells)
    ensures Shifted(g, mem, RunCells(g, mem, cells), AllCells(g))
  {
    RunCellsShifts(g, mem, cells);
    assert (iset c | c in cells) == AllCells(g);
  }

  /** The kernel's loops: tokens outside, rows block by block inside. */
  method ShiftRows(mem: array<Byte>, g: Rows, block: nat)
    requires block > 0 && g.Valid(mem.Length)
    modifies mem
    ensures Shifted(g, old(mem[..]), mem[..], AllCells(g))
  {
    ghost var before := mem[..];
    ghost var done: iset<(nat, nat)> := iset{};
    for token := 0 to g.tokens
      invariant done == iset c: (nat, nat) | g.IsCell(c) && c.1 < token
      invariant Shifted(g, before, mem[..], done)
    {
      var rowBase := 0;
      while rowBase < g.rows
        invariant done == iset c: (nat, nat) | g.IsCell(c) && (c.1 < token || (c.1 == token && c.0 < rowBase))
        invariant Shifted(g, before, mem[..], done)
      {
        for lane := 0 to block
          invariant done == iset c: (nat, nat) | g.IsCell(c) && (c.1 < token || (c.1 == token && c.0 < rowBase + lane))
          invariant Shifted(g, before, mem[..], done)
        {
          var row := rowBase + lane;
          if row < g.rows {
            ShiftOneCell(g, before, mem[..], done, row, token);
            LoadStore(mem, g.SrcCell(row, token), g.DstCell(row, token), g.elem);
            done := done + iset{(row, token)};
          }
        }
        rowBase := rowBase + block;
      }
    }
    assert done == AllCells(g);
  }

  // ----- the batch kernel -----

  predicate LeftOverlap(src: nat, dst: nat, size: nat) { dst < src && dst + size > src }

  predicate RightOverlap(src: nat, dst: nat, size: nat) { src < dst && src + size > dst }

  /** Chunks from `i` on, each loaded whole before it is stored. */
  function Chunked(mem: seq<Byte>, src: nat, dst: nat, size: nat, block: nat, i: nat): (r: seq<Byte>)
    requires block > 0 && src + size <= |mem| && dst + size <= |mem|
    ensures |r| == |mem|
    decreases if i < size then size - i else 0
  {
    if i >= size then mem
    else Chunked(Move(mem, src + i, dst + i, Min(block, size - i)), src, dst, size, block, i + block)
  }

  /** Without the barrier the lanes are single-byte accesses in whatever order they run. */
  ghost predicate ByteLanes(lanes: seq<Access>, size: nat) {
    && (forall i :: 0 <= i < |lanes| ==> lanes[i].width == 1 && lanes[i].off < size)
    && (forall o: nat :: o < size ==> Access(o, 1) in lanes)
  }

  /** What one program of the batch kernel leaves behind. */
  ghost function BatchCopy(mem: seq<Byte>, src: nat, dst: nat, size: nat, block: nat, lanes: seq<Access>): seq<Byte>
    requires block > 0 && InMemory(|mem|, src, dst, size) && ByteLanes(lanes, size)
  {
    if LeftOverlap(src, dst, size) then Chunked(mem, src, dst, size, block, 0)
    else RunAccesses(mem, src, dst, size, lanes)
  }

  lemma {:induction false} ChunkedMoves(mem: seq<Byte>, src: nat, dst: nat, size: nat, block: nat, i: nat)
    requires block > 0 && InMemory(|mem|, src, dst, size) && dst <= src && i <= size
    ensures Chunked(Move(mem, src, dst, i), src, dst, size, block, i) == Move(mem, src, dst, size)
    decreases size - i
  {
    if i < size {
      var n := Min(block, size - i);
      MoveExtends(mem, src, dst, i, n);
      if i + block <= size {
        ChunkedMoves(mem, src, dst, size, block, i + block);
      }
    }
  }

  lemma LanesCopy(mem: seq<Byte>, src: nat, dst: nat, size: nat, lanes: seq<Access>)
    requires InMemory(|mem|, src, dst, size) && ByteLanes(lanes, size)
    requires src == dst || Apart(src, dst, size)
    ensures RunAccesses(mem, src, dst, size, lanes) == Move(mem, src, dst, size)
  {
    forall o: nat | o < size ensures o in Offsets(lanes) <==> o in Whole(size) {
      assert Access(o, 1) in lanes;
      var i :| 0 <= i < |lanes| && lanes[i] == Access(o, 1);
      assert lanes[i].Covers(o);
    }
    SameOffsets(mem, src, dst, size, lanes, Whole(size));
    AllOffsetsIsMove(mem, RunAccesses(mem, src, dst, size, lanes), src, dst, size, Whole(size));
  }

  /** Running lanes upwards through a right overlap repeats the first `dst - src` bytes. */
  lemma {:induction false} UpwardLanesRepeat(mem: seq<Byte>, src: nat, dst: nat, size: nat, n: nat)
    requires InMemory(|mem|, src, dst, size) && RightOverlap(src, dst, size) && n <= size
    ensures Fits(Units(0, 0, n, false), size)
    ensures var after := RunAccesses(mem, src, dst, size, Units(0, 0, n, false));
            && (forall a :: 0 <= a < dst ==> after[a] == mem[a])
            && (n > 0 ==> after[dst] == mem[src])
            && (n > dst - src ==> after[dst + (dst - src)] == mem[src])
  {
    if n > 0 {
      var all := Units(0, 0, n, false);
      UpwardLanesRepeat(mem, src, dst, size, n - 1);
      assert all[..n - 1] == Units(0, 0, n - 1, false);
      assert all[n - 1] == Access(n - 1, 1);
    }
  }

  lemma BatchCopyMoves(mem: seq<Byte>, src: nat, dst: nat, size: nat, block: nat, lanes: seq<Access>)
    requires block > 0 && InMemory(|mem|, src, dst, size) && ByteLanes(lanes, size) && !RightOverlap(src, dst, size)
    ensures BatchCopy(mem, src, dst, size, block, lanes) == Move(mem, src, dst, size)
  {
    if LeftOverlap(src, dst, size) {
      assert Move(mem, src, dst, 0) == mem;
      ChunkedMoves(mem, src, dst, size, block, 0);
    } else {
      LanesCopy(mem, src, dst, size, lanes);
    }
  }

  lemma RightOverlapBreaks(src: nat, dst: nat, size: nat, block: nat) returns (mem: seq<Byte>, lanes: seq<Access>)
    requires block > 0 && RightOverlap(src, dst, size)
    ensures InMemory(|mem|, src, dst, size) && ByteLanes(lanes, size)
    ensures BatchCopy(mem, src, dst, size, block, lanes) != Move(mem, src, dst, size)
  {
    mem := seq(dst + size, a => if a == src then 1 else 0);
    lanes := Units(0, 0, size, false);
    UpwardLanesRepeat(mem, src, dst, size, size);
    ByteUnits(size);
    assert BatchCopy(mem, src, dst, size, block, lanes)[dst + (dst - src)] == 1;
  }

  lemma ByteUnits(size: nat)
    ensures ByteLanes(Units(0, 0, size, false), size)
  {
    forall o: nat | o < size ensures Access(o, 1) in Units(0, 0, size, false) {
      UnitsHold(0, 0, size, false, o);
    }
  }

  /**
   * The batch kernel is memmove for every memory and every lane order exactly when
   * the destination does not start inside the source.
   */
  lemma BatchCopyIsMemmove(src: nat, dst: nat, size: nat, block: nat)
    requires block > 0
    ensures (forall mem: seq<Byte>, lanes | InMemory(|mem|, src, dst, size) && ByteLanes(lanes, size) ::
               BatchCopy(mem, src, dst, size, block, lanes) == Move(mem, src, dst, size))
            <==> !RightOverlap(src, dst, size)
  {
    if RightOverlap(src, dst, size) {
      var mem, lanes := RightOverlapBreaks(src, dst, size, block);
    } else {
      forall mem: seq<Byte>, lanes | InMemory(|mem|, src, dst, size) && ByteLanes(lanes, size)
        ensures BatchCopy(mem, src, dst, size, block, lanes) == Move(mem, src, dst, size)
      {
        BatchCopyMoves(mem, src, dst, size, block, lanes);
      }
    }
  }

  /** Entries built from block ids never overlap to the right: a shift only ever goes down within its own block. */
  lemma CopyEntriesNeverOverlapRight(base: nat, stride: nat, srcBlock: nat, dstBlock: nat, shift: nat, size: nat)
    requires shift + size <= stride
    ensures !RightOverlap(base + srcBlock * stride + shift, base + dstBlock * stride, size)
  {
    if srcBlock < dstBlock {
      Product(stride, srcBlock + 1, dstBlock);
    } else {
      Product(stride, dstBlock, srcBlock);
    }
  }

  method CopyChunks(mem: array<Byte>, src: nat, dst: nat, size: nat, block: nat)
    requires block > 0 && InMemory(mem.Length, src, dst, size)
    modifies mem
    ensures mem[..] == Chunked(old(mem[..]), src, dst, size, block, 0)
  {
    ghost var before := mem[..];
    var i := 0;
    while i < size
      invariant Chunked(mem[..], src, dst, size, block, i) == Chunked(before, src, dst, size, block, 0)
      decreases size - i
    {
      ghost var now := mem[..];
      LoadStore(mem, src + i, dst + i, Min(block, size - i));
      NextChunk(now, src, dst, size, block, i);
      i := i + block;
    }
  }

  lemma NextChunk(mem: seq<Byte>, src: nat, dst: nat, size: nat, block: nat, i: nat)
    requires block > 0 && InMemory(|mem|, src, dst, size) && i < size
    ensures Chunked(mem, src, dst, size, block, i)
            == Chunked(Move(mem, src + i, dst + i, Min(block, size - i)), src, dst, size, block, i + block)
  {
  }

  /** One program of the batch kernel; without the barrier the lanes of a chunk run here in index order. */
  method BatchMemcpyProgram(mem: array<Byte>, src: nat, dst: nat, size: nat, block: nat)
    requires block > 0 && InMemory(mem.Length, src, dst, size)
    modifies mem
    ensures ByteLanes(Units(0, 0, size, false), size)
    ensures mem[..] == BatchCopy(old(mem[..]), src, dst, size, block, Units(0, 0, size, false))
  {
    ByteUnits(size);
    if LeftOverlap(src, dst, size) {
      CopyChunks(mem, src, dst, size, block);
    } else {
      CopyUnits(mem, src, dst, size, 0, 0, size, false, block);
    }
  }
}
