// Choosing how many filler records bring a request closest to a token target.
module Calibrate {
  import opened Wrappers

  function Distance(a: int, b: int): nat { if a < b then b - a else a - b }

  ghost predicate NonDecreasing(tokens: nat -> nat) { forall m: nat, n: nat :: m <= n ==> tokens(m) <= tokens(n) }

  /** `n` comes as close to the target as any count does. */
  ghost predicate Closest(tokens: nat -> nat, target: nat, n: nat) {
    forall m: nat :: Distance(tokens(n), target) <= Distance(tokens(m), target)
  }

  /** `p` splits the counts: below the target before it, at or above from it on. */
  ghost predicate Threshold(tokens: nat -> nat, target: nat, p: nat) {
    (forall m: nat :: m < p ==> tokens(m) < target) && (forall m: nat :: m >= p ==> tokens(m) >= target)
  }

  /** Being no further off than the two counts at the threshold is being no further off than any. */
  lemma NeighboursDecide(tokens: nat -> nat, target: nat, p: nat, n: nat)
    requires NonDecreasing(tokens) && Threshold(tokens, target, p)
    requires Distance(tokens(n), target) <= Distance(tokens(p), target)
    requires p > 0 ==> Distance(tokens(n), target) <= Distance(tokens(p - 1), target)
    ensures Closest(tokens, target, n)
  {
    forall m: nat ensures Distance(tokens(n), target) <= Distance(tokens(m), target) {
      if m < p {
        assert tokens(m) <= tokens(p - 1) < target;
      } else {
        assert target <= tokens(p) <= tokens(m);
      }
    }
  }

  /** The counts the doubling phase tries before it would pass 100000. */
  const DOUBLINGS: set<nat> := {128, 256, 512, 1024, 2048, 4096, 8192, 16384, 32768, 65536}

  class Calibrator {
    const tokens: nat -> nat
    var cache: map<nat, nat>

    constructor (tokens: nat -> nat)
      ensures this.tokens == tokens && cache == map[]
    {
      this.tokens, cache := tokens, map[];
    }

    /** The cache only remembers what measuring would say. */
    ghost predicate Faithful()
      reads this
    {
      forall n :: n in cache ==> cache[n] == tokens(n)
    }

    method Measure(n: nat) returns (count: nat)
      requires Faithful()
      modifies this`cache
      ensures Faithful() && count == tokens(n)
      ensures cache == old(cache)[n := tokens(n)]
    {
      if n in cache {
        assert cache == cache[n := tokens(n)];
        return cache[n];
      }
      count := tokens(n);
      cache := cache[n := count];
    }

    /** Doubling: an upper count that reaches the target, above a lower one that does not (or 0). */
    method Bracket(target: nat) returns (r: Option<(nat, nat)>)
      requires Faithful()
      modifies this`cache
      ensures Faithful()
      ensures match r
              case None => tokens(65536) < target
              case Some((low, high)) =>
                low < high <= 65536 && tokens(high) >= target && (low == 0 || tokens(low) < target)
    {
      var low: nat, high: nat := 0, 128;
      while true
        invariant Faithful() && low < high && high in DOUBLINGS && (low == 0 || tokens(low) < target)
        decreases 100000 - high
      {
        var count := Measure(high);
        if count >= target {
          return Some((low, high));
        }
        low := high;
        high := 2 * high;
        if high > 100000 {
          return None;
        }
      }
    }

    /** The first of the two bracket ends unless the second is strictly closer. */
    method BetterOf(a: nat, b: nat, target: nat) returns (best: nat)
      requires Faithful()
      modifies this`cache
      ensures Faithful() && best in {a, b}
      ensures Distance(tokens(best), target) <= Distance(tokens(a), target)
      ensures Distance(tokens(best), target) <= Distance(tokens(b), target)
    {
      var x := Measure(a);
      var y := Measure(b);
      best := if Distance(y, target) < Distance(x, target) then b else a;
    }

    /**
     * Binary search between the ends. It stops on an exact hit, or with the ends
     * crossed at the threshold.
     */
    method Search(low0: nat, high0: nat, best0: nat, target: nat) returns (low: int, high: int, best: nat)
      requires Faithful() && low0 <= high0 && NonDecreasing(tokens)
      requires tokens(high0) >= target && (low0 == 0 || tokens(low0) < target)
      modifies this`cache
      ensures Faithful()
      ensures Distance(tokens(best), target) <= Distance(tokens(best0), target)
      ensures tokens(best) == target || (low == high + 1 && low >= 0 && Threshold(tokens, target, low))
      ensures low >= 0 && high >= -1
    {
      low, high, best := low0, high0, best0;
      while low <= high
        invariant Faithful() && 0 <= low <= high + 1
        invariant forall m: nat :: m < low ==> tokens(m) < target
        invariant forall m: nat :: m > high ==> tokens(m) >= target
        invariant Distance(tokens(best), target) <= Distance(tokens(best0), target)
        decreases high - low
      {
        var middle := (low + high) / 2;
        var count := Measure(middle);
        if Distance(count, target) < Distance(tokens(best), target) {
          best := middle;
        }
        if count < target {
          low := middle + 1;
        } else if count > target {
          high := middle - 1;
        } else {
          best := middle;
          return;
        }
      }
    }

    /** The counts next to where the search ended, each taken when strictly closer. */
    method Inspect(low: nat, high: int, best0: nat, target: nat) returns (best: nat)
      requires Faithful()
      modifies this`cache
      ensures Faithful()
      ensures Distance(tokens(best), target) <= Distance(tokens(best0), target)
      ensures forall m: nat :: high - 2 <= m < low + 3 ==> Distance(tokens(best), target) <= Distance(tokens(m), target)
    {
      best := best0;
      var first: nat := if high - 2 < 0 then 0 else high - 2;
      var candidate := first;
      while candidate < low + 3
        invariant Faithful() && first <= candidate
        invariant Distance(tokens(best), target) <= Distance(tokens(best0), target)
        invariant forall m: nat :: first <= m < candidate ==>
                    Distance(tokens(best), target) <= Distance(tokens(m), target)
      {
        var count := Measure(candidate);
        if Distance(count, target) < Distance(tokens(best), target) {
          best := candidate;
        }
        candidate := candidate + 1;
      }
    }

    /**
     * The calibration: with a count that never falls as records are added it gives the
     * closest count of all, and gives up exactly when 65536 records stay below the target.
     */
    method Run(target: nat) returns (r: Option<nat>)
      requires Faithful() && NonDecreasing(tokens)
      modifies this`cache
      ensures Faithful()
      ensures r.Some? ==> Closest(tokens, target, r.value)
      ensures r == None <==> tokens(65536) < target
    {
      var ends := Bracket(target);
      if ends == None {
        return None;
      }
      var (low0, high0) := ends.value;
      var start := BetterOf(low0, high0, target);
      var low, high, found := Search(low0, high0, start, target);
      var best := Inspect(low, high, found, target);
      if tokens(found) != target {
        NeighboursDecide(tokens, target, low, best);
      }
      return Some(best);
    }
  }
}
