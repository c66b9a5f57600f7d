// Byte memory shared by the state-copy kernels: one flat address space, plain
// copies taken from a snapshot, and programs known only by their footprints.
module Memory {
  import opened Arithmetic

  type Byte = b: int | 0 <= b < 256

  /** `mem` with `len` bytes copied from `src` to `dst`, every load taken before any store. */
  function Move(mem: seq<Byte>, src: nat, dst: nat, len: nat): (r: seq<Byte>)
    requires src + len <= |mem| && dst + len <= |mem|
    ensures |r| == |mem|
    ensures forall a :: 0 <= a < |r| ==> r[a] == if dst <= a < dst + len then mem[src + (a - dst)] else mem[a]
  {
    seq(|mem|, a requires 0 <= a < |mem| => if dst <= a < dst + len then mem[src + (a - dst)] else mem[a])
  }

  /** One masked vector load followed by its store. */
  method LoadStore(mem: array<Byte>, src: nat, dst: nat, len: nat)
    requires src + len <= mem.Length && dst + len <= mem.Length
    modifies mem
    ensures mem[..] == Move(old(mem[..]), src, dst, len)
  {
    forall i | 0 <= i < len {
      mem[dst + i] := mem[src + i];
    }
  }

  predicate Apart(a: int, b: int, len: int) { a + len <= b || b + len <= a }

  // ----- programs in any order -----

  /** One program of a kernel grid: what it does to memory and which bytes it may touch. */
  datatype Program = Program(run: seq<Byte> -> seq<Byte>, loads: iset<int>, stores: iset<int>)

  ghost predicate AgreeOn(s: seq<Byte>, t: seq<Byte>, zone: iset<int>) {
    |s| == |t| && forall a :: 0 <= a < |s| && a in zone ==> s[a] == t[a]
  }

  /** `p` changes only bytes in `stores`, and what it puts there depends only on bytes in `loads`. */
  ghost predicate Respects(p: Program, size: nat) {
    && (forall s: seq<Byte> :: |s| == size ==> |p.run(s)| == size)
    && (forall s: seq<Byte>, a :: |s| == size && 0 <= a < size && a !in p.stores ==>
          |p.run(s)| == size && p.run(s)[a] == s[a])
    && (forall s: seq<Byte>, t: seq<Byte> ::
          |s| == size && |t| == size && AgreeOn(s, t, p.loads) ==> AgreeOn(p.run(s), p.run(t), p.stores))
  }

  ghost predicate Independent(p: Program, q: Program) {
    p.stores !! (q.stores + q.loads) && q.stores !! p.loads
  }

  ghost predicate Grid(ps: seq<Program>, size: nat) {
    && (forall i :: 0 <= i < |ps| ==> Respects(ps[i], size))
    && (forall i, j :: 0 <= i < j < |ps| ==> Independent(ps[i], ps[j]))
  }

  function RunAll(ps: seq<Program>, mem: seq<Byte>): seq<Byte>
    decreases |ps|
  {
    if ps == [] then mem else ps[|ps| - 1].run(RunAll(ps[..|ps| - 1], mem))
  }

  /** Independent programs leave at each byte what its only writer computes from the initial memory. */
  lemma {:induction false} RunAllSnapshot(ps: seq<Program>, mem: seq<Byte>)
    requires Grid(ps, |mem|)
    ensures |RunAll(ps, mem)| == |mem|
    ensures forall i :: 0 <= i < |ps| ==>
              |ps[i].run(mem)| == |mem| && AgreeOn(RunAll(ps, mem), ps[i].run(mem), ps[i].stores)
    ensures forall a :: 0 <= a < |mem| && (forall i :: 0 <= i < |ps| ==> a !in ps[i].stores) ==>
              RunAll(ps, mem)[a] == mem[a]
    decreases |ps|
  {
    if ps != [] {
      var front, p := ps[..|ps| - 1], ps[|ps| - 1];
      RunAllSnapshot(front, mem);
      var mid := RunAll(front, mem);
      forall a | 0 <= a < |mem| && a in p.loads ensures mid[a] == mem[a] {
        forall i | 0 <= i < |front| ensures a !in front[i].stores {
          assert Independent(ps[i], ps[|ps| - 1]);
        }
      }
      assert AgreeOn(mid, mem, p.loads);
      assert AgreeOn(p.run(mid), p.run(mem), p.stores);
      forall i | 0 <= i < |front| ensures AgreeOn(RunAll(ps, mem), ps[i].run(mem), ps[i].stores) {
        assert Independent(ps[i], ps[|ps| - 1]);
        assert AgreeOn(mid, front[i].run(mem), front[i].stores);
      }
      forall a | 0 <= a < |mem| && (forall i :: 0 <= i < |ps| ==> a !in ps[i].stores)
        ensures RunAll(ps, mem)[a] == mem[a]
      {
        assert a !in ps[|ps| - 1].stores;
        assert forall i :: 0 <= i < |front| ==> front[i] == ps[i];
      }
    }
  }

  /** Every index below `n` exactly once. */
  ghost predicate IsOrder(order: seq<nat>, n: nat) {
    && (forall i :: 0 <= i < |order| ==> order[i] < n)
    && (forall i, j :: 0 <= i < j < |order| ==> order[i] != order[j])
    && (forall k: nat :: k < n ==> k in order)
  }

  function Launch(ps: seq<Program>, order: seq<nat>): seq<Program>
    requires forall i :: 0 <= i < |order| ==> order[i] < |ps|
  {
    seq(|order|, i requires 0 <= i < |order| => ps[order[i]])
  }

  /** Any launch order of an independent grid leaves the same memory. */
  lemma AnyOrderSameMemory(ps: seq<Program>, order: seq<nat>, mem: seq<Byte>)
    requires Grid(ps, |mem|) && IsOrder(order, |ps|)
    ensures Grid(Launch(ps, order), |mem|)
    ensures RunAll(Launch(ps, order), mem) == RunAll(ps, mem)
  {
    var qs := Launch(ps, order);
    forall i, j | 0 <= i < j < |qs| ensures Independent(qs[i], qs[j]) {
      if order[i] < order[j] {
        assert Independent(ps[order[i]], ps[order[j]]);
      } else {
        assert Independent(ps[order[j]], ps[order[i]]);
      }
    }
    RunAllSnapshot(ps, mem);
    RunAllSnapshot(qs, mem);
    forall a | 0 <= a < |mem| ensures RunAll(ps, mem)[a] == RunAll(qs, mem)[a] {
      if i: nat :| i < |ps| && a in ps[i].stores {
        assert i in order;
        var j :| 0 <= j < |order| && order[j] == i;
        assert qs[j] == ps[i];
      } else {
        forall j | 0 <= j < |qs| ensures a !in qs[j].stores {
          assert qs[j] == ps[order[j]];
        }
      }
    }
  }
}
