// The head/body/tail copy whose 8-byte body is split over parallel tiles.
module TiledCopy {
  import opened Arithmetic
  import opened Memory

  /** One lane's load and store: `width` bytes at the same offset of the source and the destination. */
  datatype Access = Access(off: nat, width: nat) {
    predicate Covers(o: int) { off <= o < off + width }
  }

  /** Source and destination share their alignment below 8 bytes, so the 8-byte path is taken. */
  predicate Wide(src: nat, dst: nat) { src % 8 == dst % 8 }

  function HeadBytes(dst: nat, size: nat): (h: nat)
    ensures h <= size && h < 8
    ensures h < size ==> (dst + h) % 8 == 0
  {
    var d: int := dst;
    Min((-d) % 8, size)
  }

  /** How many units each tile owns: an even share rounded up to whole copy blocks. */
  function PerTile(units: nat, tiles: nat, block: nat): (per: nat)
    requires tiles > 0 && block > 0
    ensures units > 0 ==> per > 0
  {
    CdivBounds(units, tiles);
    CdivBounds(Cdiv(units, tiles), block);
    Cdiv(Cdiv(units, tiles), block) * block
  }

  function TileStart(units: nat, tile: nat, tiles: nat, block: nat): nat
    requires tiles > 0 && block > 0
  {
    tile * PerTile(units, tiles, block)
  }

  function TileEnd(units: nat, tile: nat, tiles: nat, block: nat): nat
    requires tiles > 0 && block > 0
  {
    Min(TileStart(units, tile, tiles, block) + PerTile(units, tiles, block), units)
  }

  /** Unit `u` of a run of 8-byte words or of single bytes starting at offset `base`. */
  function Unit(base: nat, u: nat, words: bool): Access {
    if words then Access(base + 8 * u, 8) else Access(base + u, 1)
  }

  function Units(base: nat, lo: nat, hi: nat, words: bool): seq<Access> {
    seq(if lo < hi then hi - lo else 0, i requires i >= 0 => Unit(base, lo + i, words))
  }

  /** Everything tile `tile` loads and stores, in program order. */
  function TileAccesses(src: nat, dst: nat, size: nat, tile: nat, tiles: nat, block: nat): seq<Access>
    requires tiles > 0 && block > 0
  {
    if Wide(src, dst) then
      var head := HeadBytes(dst, size);
      var units := (size - head) / 8;
      var body := Units(head, TileStart(units, tile, tiles, block), TileEnd(units, tile, tiles, block), true);
      if tile == 0 then
        var tail := head + units * 8;
        Units(0, 0, head, false) + body + Units(tail, 0, size - tail, false)
      else
        body
    else
      Units(0, TileStart(size, tile, tiles, block), TileEnd(size, tile, tiles, block), false)
  }

  // ----- exactly one access per byte -----

  /** Which access must move byte `o`: determined by the addresses and the size alone. */
  function AccessOf(src: nat, dst: nat, size: nat, o: nat): Access
    requires o < size
  {
    var head := HeadBytes(dst, size);
    var units := (size - head) / 8;
    if Wide(src, dst) && head <= o < head + units * 8 then Access(head + (o - head) / 8 * 8, 8) else Access(o, 1)
  }

  function OwnerOf(src: nat, dst: nat, size: nat, tiles: nat, block: nat, o: nat): nat
    requires o < size && tiles > 0 && block > 0
  {
    var head := HeadBytes(dst, size);
    var units := (size - head) / 8;
    if Wide(src, dst) then
      if head <= o < head + units * 8 then (o - head) / 8 / PerTile(units, tiles, block) else 0
    else
      o / PerTile(size, tiles, block)
  }

  lemma UnitInOneTile(units: nat, i: nat, tiles: nat, block: nat)
    requires i < units && tiles > 0 && block > 0
    ensures PerTile(units, tiles, block) > 0
    ensures i / PerTile(units, tiles, block) < tiles
    ensures forall tile: nat :: TileStart(units, tile, tiles, block) <= i < TileEnd(units, tile, tiles, block)
                                <==> tile == i / PerTile(units, tiles, block)
  {
    var per := PerTile(units, tiles, block);
    CdivBounds(units, tiles);
    CdivBounds(Cdiv(units, tiles), block);
    Product(tiles, Cdiv(units, tiles), per);
    Quotient(i, per, tiles);
    forall tile: nat ensures tile * per <= i < tile * per + per <==> tile == i / per {
      Slot(i, per, tile);
    }
  }

  lemma UnitOf(base: nat, lo: nat, hi: nat, words: bool, acc: Access) returns (u: nat)
    requires acc in Units(base, lo, hi, words)
    ensures lo <= u < hi && acc == Unit(base, u, words)
  {
    var i :| 0 <= i < |Units(base, lo, hi, words)| && Units(base, lo, hi, words)[i] == acc;
    u := lo + i;
  }

  lemma UnitsHold(base: nat, lo: nat, hi: nat, words: bool, u: nat)
    requires lo <= u < hi
    ensures Unit(base, u, words) in Units(base, lo, hi, words)
  {
    assert Units(base, lo, hi, words)[u - lo] == Unit(base, u, words);
  }

  /**
   * Coverage and exclusivity: byte `o` is moved by tile `t` through access `acc`
   * exactly when both are the ones the addresses determine, and no access leaves the region.
   */
  lemma EachByteOnce(src: nat, dst: nat, size: nat, tiles: nat, block: nat, o: nat)
    requires tiles > 0 && block > 0 && o < size
    ensures OwnerOf(src, dst, size, tiles, block, o) < tiles
    ensures forall t: nat, acc ::
              (acc in TileAccesses(src, dst, size, t, tiles, block) && acc.Covers(o))
              <==> (t == OwnerOf(src, dst, size, tiles, block, o) && acc == AccessOf(src, dst, size, o))
  {
    var head := HeadBytes(dst, size);
    var units := (size - head) / 8;
    if !Wide(src, dst) {
      UnitInOneTile(size, o, tiles, block);
    } else if head <= o < head + units * 8 {
      UnitInOneTile(units, (o - head) / 8, tiles, block);
    }
    forall t: nat, acc | acc in TileAccesses(src, dst, size, t, tiles, block) && acc.Covers(o)
      ensures t == OwnerOf(src, dst, size, tiles, block, o) && acc == AccessOf(src, dst, size, o)
    {
      CoveredByOwner(src, dst, size, t, tiles, block, o, acc);
    }
    OwnerCovers(src, dst, size, tiles, block, o);
  }

  lemma CoveredByOwner(src: nat, dst: nat, size: nat, t: nat, tiles: nat, block: nat, o: nat, acc: Access)
    requires tiles > 0 && block > 0 && o < size
    requires acc in TileAccesses(src, dst, size, t, tiles, block) && acc.Covers(o)
    ensures t == OwnerOf(src, dst, size, tiles, block, o) && acc == AccessOf(src, dst, size, o)
  {
    var head := HeadBytes(dst, size);
    var units := (size - head) / 8;
    if !Wide(src, dst) {
      var u := UnitOf(0, TileStart(size, t, tiles, block), TileEnd(size, t, tiles, block), false, acc);
      UnitInOneTile(size, o, tiles, block);
    } else if acc in Units(head, TileStart(units, t, tiles, block), TileEnd(units, t, tiles, block), true) {
      var u := UnitOf(head, TileStart(units, t, tiles, block), TileEnd(units, t, tiles, block), true, acc);
      assert u == (o - head) / 8;
      UnitInOneTile(units, u, tiles, block);
    } else if acc in Units(0, 0, head, false) {
      var u := UnitOf(0, 0, head, false, acc);
    } else {
      var u := UnitOf(head + units * 8, 0, size - (head + units * 8), false, acc);
    }
  }

  lemma OwnerCovers(src: nat, dst: nat, size: nat, tiles: nat, block: nat, o: nat)
    requires tiles > 0 && block > 0 && o < size
    ensures var acc := AccessOf(src, dst, size, o);
            acc.Covers(o) && acc in TileAccesses(src, dst, size, OwnerOf(src, dst, size, tiles, block, o), tiles, block)
  {
    var head := HeadBytes(dst, size);
    var units := (size - head) / 8;
    var t := OwnerOf(src, dst, size, tiles, block, o);
    if !Wide(src, dst) {
      UnitInOneTile(size, o, tiles, block);
      UnitsHold(0, TileStart(size, t, tiles, block), TileEnd(size, t, tiles, block), false, o);
    } else if o < head {
      UnitsHold(0, 0, head, false, o);
    } else if o < head + units * 8 {
      UnitInOneTile(units, (o - head) / 8, tiles, block);
      UnitsHold(head, TileStart(units, t, tiles, block), TileEnd(units, t, tiles, block), true, (o - head) / 8);
    } else {
      UnitsHold(head + units * 8, 0, size - (head + units * 8), false, o - (head + units * 8));
    }
  }

  lemma UnitInside(src: nat, dst: nat, size: nat, base: nat, lo: nat, hi: nat, words: bool, acc: Access)
    requires acc in Units(base, lo, hi, words)
    requires base + (if words then 8 * hi else hi) <= size
    requires words ==> Wide(src, dst) && (dst + base) % 8 == 0
    ensures acc.off + acc.width <= size
    ensures acc.width == 1 || (acc.width == 8 && (src + acc.off) % 8 == 0 && (dst + acc.off) % 8 == 0)
  {
    var u := UnitOf(base, lo, hi, words, acc);
  }

  /** No access leaves the copied region, and every 8-byte access is 8-byte aligned on both sides. */
  lemma AccessesInsideAndAligned(src: nat, dst: nat, size: nat, t: nat, tiles: nat, block: nat, acc: Access)
    requires tiles > 0 && block > 0
    requires acc in TileAccesses(src, dst, size, t, tiles, block)
    ensures acc.off + acc.width <= size
    ensures acc.width == 1 || (acc.width == 8 && (src + acc.off) % 8 == 0 && (dst + acc.off) % 8 == 0)
  {
    var head := HeadBytes(dst, size);
    var units := (size - head) / 8;
    if !Wide(src, dst) {
      UnitInside(src, dst, size, 0, TileStart(size, t, tiles, block), TileEnd(size, t, tiles, block), false, acc);
      return;
    }
    var start, end := TileStart(units, t, tiles, block), TileEnd(units, t, tiles, block);
    var tail := head + units * 8;
    if acc in Units(head, start, end, true) {
      var u := UnitOf(head, start, end, true, acc);
      UnitInside(src, dst, size, head, start, end, true, acc);
    } else if acc in Units(0, 0, head, false) {
      UnitInside(src, dst, size, 0, 0, head, false, acc);
    } else {
      UnitInside(src, dst, size, tail, 0, size - tail, false, acc);
    }
  }

  ghost predicate Ascending(accs: seq<Access>) {
    forall i, j :: 0 <= i < j < |accs| ==> accs[i].off + accs[i].width <= accs[j].off
  }

  lemma RunAscends(base: nat, lo: nat, hi: nat, words: bool)
    ensures Ascending(Units(base, lo, hi, words))
  {
    var accs := Units(base, lo, hi, words);
    forall i, j | 0 <= i < j < |accs| ensures accs[i].off + accs[i].width <= accs[j].off {
      assert accs[i] == Unit(base, lo + i, words) && accs[j] == Unit(base, lo + j, words);
    }
  }

  lemma ThreeRunsAscend(head: nat, end: nat, units: nat, size: nat)
    requires end <= units && head + units * 8 <= size
    ensures Ascending(Units(0, 0, head, false) + Units(head, 0, end, true)
                        + Units(head + units * 8, 0, size - (head + units * 8), false))
  {
    var accs := Units(0, 0, head, false) + Units(head, 0, end, true)
                + Units(head + units * 8, 0, size - (head + units * 8), false);
    forall k: nat | k < |accs|
      ensures accs[k] == if k < head then Unit(0, k, false)
                         else if k < head + end then Unit(head, k - head, true)
                         else Unit(head + units * 8, k - head - end, false)
    {
    }
  }

  /** Within one tile the accesses go upwards without touching. */
  lemma AccessesAscend(src: nat, dst: nat, size: nat, t: nat, tiles: nat, block: nat)
    requires tiles > 0 && block > 0
    ensures Ascending(TileAccesses(src, dst, size, t, tiles, block))
  {
    var head := HeadBytes(dst, size);
    var units := (size - head) / 8;
    var lo, hi := TileStart(units, t, tiles, block), TileEnd(units, t, tiles, block);
    RunAscends(0, TileStart(size, t, tiles, block), TileEnd(size, t, tiles, block), false);
    RunAscends(head, lo, hi, true);
    if t == 0 {
      ThreeRunsAscend(head, hi, units, size);
    }
  }

  // ----- the effect of accesses in any order -----

  ghost predicate Fits(accs: seq<Access>, size: nat) {
    forall i :: 0 <= i < |accs| ==> accs[i].off + accs[i].width <= size
  }

  ghost predicate InMemory(length: nat, src: nat, dst: nat, size: nat) {
    src + size <= length && dst + size <= length
  }

  ghost function RunAccesses(mem: seq<Byte>, src: nat, dst: nat, size: nat, accs: seq<Access>): (r: seq<Byte>)
    requires InMemory(|mem|, src, dst, size) && Fits(accs, size)
    ensures |r| == |mem|
    decreases |accs|
  {
    if accs == [] then mem
    else
      var last := accs[|accs| - 1];
      Move(RunAccesses(mem, src, dst, size, accs[..|accs| - 1]), src + last.off, dst + last.off, last.width)
  }

  ghost predicate Touched(accs: seq<Access>, o: int) { exists i :: 0 <= i < |accs| && accs[i].Covers(o) }

  /** What byte `a` holds once the offsets in `moved` have been copied out of `mem`. */
  ghost function ByteAfter(mem: seq<Byte>, src: nat, dst: nat, size: nat, moved: iset<int>, a: nat): Byte
    requires InMemory(|mem|, src, dst, size) && a < |mem|
  {
    if dst <= a < dst + size && a - dst in moved then mem[src + (a - dst)] else mem[a]
  }

  predicate Inside(o: int, size: nat) { 0 <= o < size }

  ghost function Whole(size: nat): iset<int> { iset o | Inside(o, size) }

  ghost function Offsets(accs: seq<Access>): iset<int> { iset o | Touched(accs, o) }

  ghost predicate CopiedOffsets(mem: seq<Byte>, after: seq<Byte>, src: nat, dst: nat, size: nat, moved: iset<int>)
    requires InMemory(|mem|, src, dst, size)
  {
    |after| == |mem| && forall a: nat :: a < |mem| ==> after[a] == ByteAfter(mem, src, dst, size, moved, a)
  }

  lemma CopyOneMore(mem: seq<Byte>, mid: seq<Byte>, src: nat, dst: nat, size: nat, moved: iset<int>, acc: Access)
    requires InMemory(|mem|, src, dst, size) && acc.off + acc.width <= size
    requires src == dst || Apart(src, dst, size)
    requires CopiedOffsets(mem, mid, src, dst, size, moved)
    ensures CopiedOffsets(mem, Move(mid, src + acc.off, dst + acc.off, acc.width), src, dst, size,
                          moved + iset o | acc.Covers(o))
  {
    var after := Move(mid, src + acc.off, dst + acc.off, acc.width);
    var more := moved + iset o | acc.Covers(o);
    forall a: nat | a < |mem| ensures after[a] == ByteAfter(mem, src, dst, size, more, a) {
      assert mid[a] == ByteAfter(mem, src, dst, size, moved, a);
      if acc.Covers(a - dst) {
        var x := src + (a - dst);
        assert mid[x] == ByteAfter(mem, src, dst, size, moved, x);
      }
    }
  }

  /** Between separate (or identical) regions, any list of accesses moves exactly the bytes it covers. */
  lemma {:induction false} RunPointwise(mem: seq<Byte>, src: nat, dst: nat, size: nat, accs: seq<Access>)
    requires InMemory(|mem|, src, dst, size) && Fits(accs, size)
    requires src == dst || Apart(src, dst, size)
    ensures CopiedOffsets(mem, RunAccesses(mem, src, dst, size, accs), src, dst, size, Offsets(accs))
    decreases |accs|
  {
    if accs != [] {
      var front, last := accs[..|accs| - 1], accs[|accs| - 1];
      RunPointwise(mem, src, dst, size, front);
      CopyOneMore(mem, RunAccesses(mem, src, dst, size, front), src, dst, size, Offsets(front), last);
      forall o ensures o in Offsets(accs) <==> o in Offsets(front) + iset o | last.Covers(o) {
        TouchedByLast(accs, o);
      }
      assert Offsets(accs) == Offsets(front) + iset o | last.Covers(o);
    }
  }

  lemma TouchedByLast(accs: seq<Access>, o: int)
    requires accs != []
    ensures Touched(accs, o) <==> Touched(accs[..|accs| - 1], o) || accs[|accs| - 1].Covers(o)
  {
    var front := accs[..|accs| - 1];
    if Touched(front, o) {
      var i :| 0 <= i < |front| && front[i].Covers(o);
      assert accs[i] == front[i];
    }
    if i :| 0 <= i < |accs| && accs[i].Covers(o) {
      assert i == |accs| - 1 || front[i] == accs[i];
    }
  }

  lemma TileFits(src: nat, dst: nat, size: nat, t: nat, tiles: nat, block: nat)
    requires tiles > 0 && block > 0
    ensures Fits(TileAccesses(src, dst, size, t, tiles, block), size)
  {
    var accs := TileAccesses(src, dst, size, t, tiles, block);
    forall i | 0 <= i < |accs| ensures accs[i].off + accs[i].width <= size {
      AccessesInsideAndAligned(src, dst, size, t, tiles, block, accs[i]);
    }
  }

  lemma TileTouches(src: nat, dst: nat, size: nat, t: nat, tiles: nat, block: nat, o: nat)
    requires tiles > 0 && block > 0 && o < size
    ensures Touched(TileAccesses(src, dst, size, t, tiles, block), o) <==> OwnerOf(src, dst, size, tiles, block, o) == t
  {
    var accs := TileAccesses(src, dst, size, t, tiles, block);
    EachByteOnce(src, dst, size, tiles, block, o);
    if i :| 0 <= i < |accs| && accs[i].Covers(o) {
      assert accs[i] in accs;
    }
    OwnerCovers(src, dst, size, tiles, block, o);
    if OwnerOf(src, dst, size, tiles, block, o) == t {
      var i :| 0 <= i < |accs| && accs[i] == AccessOf(src, dst, size, o);
    }
  }

  ghost function OwnedOffsets(src: nat, dst: nat, size: nat, t: nat, tiles: nat, block: nat): iset<int>
    requires tiles > 0 && block > 0
  {
    iset o: int | 0 <= o < size && OwnerOf(src, dst, size, tiles, block, o) == t
  }

  /** One tile, in program order, moves exactly the bytes it owns. */
  lemma TileMovesItsBytes(mem: seq<Byte>, src: nat, dst: nat, size: nat, t: nat, tiles: nat, block: nat)
    requires tiles > 0 && block > 0 && InMemory(|mem|, src, dst, size)
    requires src == dst || Apart(src, dst, size)
    ensures Fits(TileAccesses(src, dst, size, t, tiles, block), size)
    ensures CopiedOffsets(mem, RunAccesses(mem, src, dst, size, TileAccesses(src, dst, size, t, tiles, block)),
                          src, dst, size, OwnedOffsets(src, dst, size, t, tiles, block))
  {
    TileFits(src, dst, size, t, tiles, block);
    var accs := TileAccesses(src, dst, size, t, tiles, block);
    var owned := OwnedOffsets(src, dst, size, t, tiles, block);
    forall o: nat | o < size ensures o in Offsets(accs) <==> o in owned {
      TileTouches(src, dst, size, t, tiles, block, o);
    }
    SameOffsets(mem, src, dst, size, accs, owned);
  }

  lemma SameOffsets(mem: seq<Byte>, src: nat, dst: nat, size: nat, accs: seq<Access>, moved: iset<int>)
    requires InMemory(|mem|, src, dst, size) && Fits(accs, size)
    requires src == dst || Apart(src, dst, size)
    requires forall o: nat :: o < size ==> (o in Offsets(accs) <==> o in moved)
    ensures CopiedOffsets(mem, RunAccesses(mem, src, dst, size, accs), src, dst, size, moved)
  {
    RunPointwise(mem, src, dst, size, accs);
    forall a: nat | a < |mem|
      ensures ByteAfter(mem, src, dst, size, Offsets(accs), a) == ByteAfter(mem, src, dst, size, moved, a)
    {
      if dst <= a < dst + size {
        var o: nat := a - dst;
        assert o in Offsets(accs) <==> o in moved;
      }
    }
  }

  /** `mix` holds the accesses of all tiles, interleaved in any way. */
  ghost predicate Interleaves(mix: seq<Access>, src: nat, dst: nat, size: nat, tiles: nat, block: nat)
    requires tiles > 0 && block > 0
  {
    forall acc :: acc in mix <==> exists t: nat :: t < tiles && acc in TileAccesses(src, dst, size, t, tiles, block)
  }

  /** However the lanes of all tiles interleave, the result is one plain copy. */
  lemma AnyInterleavingCopies(mem: seq<Byte>, src: nat, dst: nat, size: nat, tiles: nat, block: nat, mix: seq<Access>)
    requires tiles > 0 && block > 0 && InMemory(|mem|, src, dst, size)
    requires src == dst || Apart(src, dst, size)
    requires Interleaves(mix, src, dst, size, tiles, block)
    ensures Fits(mix, size) && RunAccesses(mem, src, dst, size, mix) == Move(mem, src, dst, size)
  {
    forall i | 0 <= i < |mix| ensures mix[i].off + mix[i].width <= size {
      assert mix[i] in mix;
      var t: nat :| t < tiles && mix[i] in TileAccesses(src, dst, size, t, tiles, block);
      AccessesInsideAndAligned(src, dst, size, t, tiles, block, mix[i]);
    }
    var all := Whole(size);
    forall o: nat | o < size ensures o in Offsets(mix) <==> o in all {
      EachByteOnce(src, dst, size, tiles, block, o);
      OwnerCovers(src, dst, size, tiles, block, o);
      assert AccessOf(src, dst, size, o) in mix;
      var i :| 0 <= i < |mix| && mix[i] == AccessOf(src, dst, size, o);
    }
    SameOffsets(mem, src, dst, size, mix, all);
    AllOffsetsIsMove(mem, RunAccesses(mem, src, dst, size, mix), src, dst, size, all);
  }

  lemma AllOffsetsIsMove(mem: seq<Byte>, after: seq<Byte>, src: nat, dst: nat, size: nat, all: iset<int>)
    requires InMemory(|mem|, src, dst, size) && all == Whole(size)
    requires CopiedOffsets(mem, after, src, dst, size, all)
    ensures after == Move(mem, src, dst, size)
  {
    forall a: nat | a < |mem| ensures after[a] == Move(mem, src, dst, size)[a] {
      assert after[a] == ByteAfter(mem, src, dst, size, all, a);
    }
  }

  // ----- the kernel body -----

  /** One lane: the next access of `all`. */
  method CopyLane(mem: array<Byte>, src: nat, dst: nat, ghost size: nat, acc: Access,
                  ghost all: seq<Access>, ghost done: nat, ghost before: seq<Byte>)
    requires InMemory(mem.Length, src, dst, size) && Fits(all, size) && |before| == mem.Length
    requires done < |all| && acc == all[done]
    requires mem[..] == RunAccesses(before, src, dst, size, all[..done])
    modifies mem
    ensures mem[..] == RunAccesses(before, src, dst, size, all[..done + 1])
  {
    assert all[..done + 1][..done] == all[..done];
    LoadStore(mem, src + acc.off, dst + acc.off, acc.width);
  }

  /** Lane for unit `u`: it moves its access, or is masked off past the end. */
  method MaskedLane(mem: array<Byte>, src: nat, dst: nat, ghost size: nat, base: nat, u: nat, hi: nat, words: bool,
                    ghost all: seq<Access>, ghost done: nat, ghost before: seq<Byte>) returns (ghost after: nat)
    requires InMemory(mem.Length, src, dst, size) && Fits(all, size) && |before| == mem.Length
    requires done <= |all| && (u < hi <==> done < |all|) && (u < hi ==> all[done] == Unit(base, u, words))
    requires mem[..] == RunAccesses(before, src, dst, size, all[..done])
    modifies mem
    ensures after == Min(done + 1, |all|)
    ensures mem[..] == RunAccesses(before, src, dst, size, all[..after])
  {
    after := done;
    if u < hi {
      CopyLane(mem, src, dst, size, Unit(base, u, words), all, done, before);
      after := done + 1;
    }
  }

  /** Up to `block` masked lanes starting at unit `i`. */
  method CopyBlock(mem: array<Byte>, src: nat, dst: nat, ghost size: nat, base: nat, i: nat, hi: nat, words: bool,
                   block: nat,
                   ghost all: seq<Access>, ghost done: nat, ghost before: seq<Byte>) returns (ghost after: nat)
    requires InMemory(mem.Length, src, dst, size) && Fits(all, size) && |before| == mem.Length
    requires i < hi && done + (hi - i) == |all|
    requires done <= i && forall k :: 0 <= k < |all| ==> all[k] == Unit(base, i - done + k, words)
    requires mem[..] == RunAccesses(before, src, dst, size, all[..done])
    modifies mem
    ensures after == Min(done + block, |all|)
    ensures mem[..] == RunAccesses(before, src, dst, size, all[..after])
  {
    after := done;
    for lane := 0 to block
      invariant after == Min(done + lane, |all|)
      invariant mem[..] == RunAccesses(before, src, dst, size, all[..after])
    {
      after := MaskedLane(mem, src, dst, size, base, i + lane, hi, words, all, after, before);
    }
  }

  /** Units `lo..hi` copied block by block. */
  method CopyUnits(mem: array<Byte>, src: nat, dst: nat, ghost size: nat, base: nat, lo: nat, hi: nat, words: bool,
                   block: nat)
    requires block > 0 && InMemory(mem.Length, src, dst, size)
    requires Fits(Units(base, lo, hi, words), size)
    modifies mem
    ensures mem[..] == RunAccesses(old(mem[..]), src, dst, size, Units(base, lo, hi, words))
  {
    ghost var before := mem[..];
    ghost var all := Units(base, lo, hi, words);
    assert forall k :: 0 <= k < |all| ==> all[k] == Unit(base, lo + k, words);
    var i := lo;
    ghost var done := 0;
    while i < hi
      invariant lo <= i && done == if i < hi then i - lo else |all|
      invariant mem[..] == RunAccesses(before, src, dst, size, all[..done])
      decreases hi - i
    {
      done := CopyBlock(mem, src, dst, size, base, i, hi, words, block, all, done, before);
      i := i + block;
    }
    assert all[..|all|] == all;
  }

  lemma {:induction false} RunAppend(mem: seq<Byte>, src: nat, dst: nat, size: nat, a: seq<Access>, b: seq<Access>)
    requires InMemory(|mem|, src, dst, size) && Fits(a, size) && Fits(b, size)
    ensures Fits(a + b, size)
    ensures RunAccesses(mem, src, dst, size, a + b)
              == RunAccesses(RunAccesses(mem, src, dst, size, a), src, dst, size, b)
    decreases |b|
  {
    if b == [] {
      assert a + b == a;
    } else {
      assert (a + b)[..|a + b| - 1] == a + b[..|b| - 1];
      RunAppend(mem, src, dst, size, a, b[..|b| - 1]);
    }
  }

  /** One tile of the tiled copy. */
  method MemcpyTile(mem: array<Byte>, src: nat, dst: nat, size: nat, tile: nat, tiles: nat, block: nat)
    requires tiles > 0 && block > 0 && InMemory(mem.Length, src, dst, size)
    modifies mem
    ensures Fits(TileAccesses(src, dst, size, tile, tiles, block), size)
    ensures mem[..] == RunAccesses(old(mem[..]), src, dst, size, TileAccesses(src, dst, size, tile, tiles, block))
  {
    TileFits(src, dst, size, tile, tiles, block);
    if Wide(src, dst) {
      MemcpyTileWide(mem, src, dst, size, tile, tiles, block);
    } else {
      var perTile := PerTile(size, tiles, block);
      var start := tile * perTile;
      var end := Min(start + perTile, size);
      CopyUnits(mem, src, dst, size, 0, start, end, false, block);
    }
  }

  lemma FitsParts(a: seq<Access>, b: seq<Access>, c: seq<Access>, size: nat)
    requires Fits(a + b + c, size)
    ensures Fits(a, size) && Fits(b, size) && Fits(c, size)
  {
    assert forall i :: 0 <= i < |a| ==> a[i] == (a + b + c)[i];
    assert forall i :: 0 <= i < |b| ==> b[i] == (a + b + c)[|a| + i];
    assert forall i :: 0 <= i < |c| ==> c[i] == (a + b + c)[|a| + |b| + i];
  }

  method MemcpyTileWide(mem: array<Byte>, src: nat, dst: nat, size: nat, tile: nat, tiles: nat, block: nat)
    requires tiles > 0 && block > 0 && InMemory(mem.Length, src, dst, size) && Wide(src, dst)
    requires Fits(TileAccesses(src, dst, size, tile, tiles, block), size)
    modifies mem
    ensures mem[..] == RunAccesses(old(mem[..]), src, dst, size, TileAccesses(src, dst, size, tile, tiles, block))
  {
    ghost var before := mem[..];
    var head := HeadBytes(dst, size);
    var units := (size - head) / 8;
    var tail := head + units * 8;
    var perTile := PerTile(units, tiles, block);
    var start := tile * perTile;
    var end := Min(start + perTile, units);
    ghost var first, body, last := Units(0, 0, head, false), Units(head, start, end, true),
                                   Units(tail, 0, size - tail, false);
    if tile == 0 {
      FitsParts(first, body, last, size);
      CopyUnits(mem, src, dst, size, 0, 0, head, false, 8);
    }
    CopyUnits(mem, src, dst, size, head, start, end, true, block);
    if tile == 0 {
      CopyUnits(mem, src, dst, size, tail, 0, size - tail, false, 8);
      RunAppend(before, src, dst, size, first, body);
      RunAppend(before, src, dst, size, first + body, last);
    }
  }

  /** A single-tile launch between separate regions is a plain copy. */
  lemma OneTileCopies(mem: seq<Byte>, src: nat, dst: nat, size: nat, block: nat)
    requires block > 0 && InMemory(|mem|, src, dst, size)
    requires src == dst || Apart(src, dst, size)
    ensures Fits(TileAccesses(src, dst, size, 0, 1, block), size)
    ensures RunAccesses(mem, src, dst, size, TileAccesses(src, dst, size, 0, 1, block)) == Move(mem, src, dst, size)
  {
    AnyInterleavingCopies(mem, src, dst, size, 1, block, TileAccesses(src, dst, size, 0, 1, block));
  }
}
