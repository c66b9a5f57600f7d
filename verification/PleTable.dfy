// Row lookups in a table split over shard files: the inline path, the deduplicating
// threaded path, and the placeholder with its reused staging buffer.
module PleTable {
  import opened Arithmetic
  import opened Memory
  import opened Wrappers

  // ----- shards -----

  /** Rows shard `idx` must hold for a vocabulary of `vocab` rows. */
  function ExpectedRows(vocab: nat, shardSize: nat, idx: nat): nat {
    var left := vocab - idx * shardSize;
    if left < 0 then 0 else Min(shardSize, left)
  }

  function SumExpected(vocab: nat, shardSize: nat, parts: nat): nat {
    if parts == 0 then 0 else SumExpected(vocab, shardSize, parts - 1) + ExpectedRows(vocab, shardSize, parts - 1)
  }

  lemma {:induction false} SumExpectedIsPrefix(vocab: nat, shardSize: nat, parts: nat)
    ensures SumExpected(vocab, shardSize, parts) == Min(parts * shardSize, vocab)
  {
    if parts > 0 {
      SumExpectedIsPrefix(vocab, shardSize, parts - 1);
      assert parts * shardSize == (parts - 1) * shardSize + shardSize;
    }
  }

  /** With shards of `ceil(vocab / parts)` rows the shards hold exactly the vocabulary ... */
  lemma ShardsHoldVocabulary(vocab: nat, parts: nat)
    requires parts > 0
    ensures SumExpected(vocab, Cdiv(vocab, parts), parts) == vocab
  {
    CdivBounds(vocab, parts);
    SumExpectedIsPrefix(vocab, Cdiv(vocab, parts), parts);
    assert parts * Cdiv(vocab, parts) == Cdiv(vocab, parts) * parts;
  }

  /** ... and an id is a row of the vocabulary exactly when its local row exists in its shard. */
  lemma IdInItsShard(vocab: nat, parts: nat, id: nat)
    requires parts > 0 && vocab > 0
    ensures Cdiv(vocab, parts) > 0
    ensures var size := Cdiv(vocab, parts);
            id < vocab <==> id / size < parts && id - id / size * size < ExpectedRows(vocab, size, id / size)
  {
    CdivBounds(vocab, parts);
    var size := Cdiv(vocab, parts);
    BlockBounds(id, size);
    if id < vocab {
      assert parts * size == size * parts;
      Quotient(id, size, parts);
    }
  }

  /** The rows shard `idx` holds of a resident table. */
  function ShardOf<R>(rows: seq<R>, shardSize: nat, idx: nat): seq<R> {
    rows[Min(idx * shardSize, |rows|)..Min(idx * shardSize + shardSize, |rows|)]
  }

  function Total<R>(mm: seq<Option<seq<R>>>): nat {
    if mm == [] then 0 else Total(mm[..|mm| - 1]) + if mm[|mm| - 1].Some? then |mm[|mm| - 1].value| else 0
  }

  /** The mapped table: `mm[i]` is shard `i`, or `None` where no shard file was found. */
  datatype Table<R> = Table(mm: seq<Option<seq<R>>>, shardSize: nat, chunk: nat, fastRows: int) {
    function RowsTotal(): nat { Total(mm) }

    predicate Present(id: int) {
      shardSize > 0 && 0 <= id && id / shardSize < |mm| && mm[id / shardSize].Some?
    }

    /** Each shard found holds its slice of `rows`, as the size check at set-up demands. */
    ghost predicate Serves(rows: seq<R>) {
      && chunk > 0
      && (rows != [] ==> shardSize > 0)
      && (forall i :: 0 <= i < |mm| && mm[i].Some? ==> mm[i].value == ShardOf(rows, shardSize, i))
    }

    /** No shard is missing. */
    ghost predicate Complete(rows: seq<R>) {
      && Serves(rows) && |rows| <= |mm| * shardSize
      && forall i :: 0 <= i < |mm| ==> mm[i].Some?
    }
  }

  /** A shard's slice of the table has exactly the rows the size check demands. */
  lemma ShardLength<R>(rows: seq<R>, shardSize: nat, idx: nat)
    ensures Min(idx * shardSize, |rows|) <= Min((idx + 1) * shardSize, |rows|)
    ensures |ShardOf(rows, shardSize, idx)| == ExpectedRows(|rows|, shardSize, idx)
    ensures |ShardOf(rows, shardSize, idx)| == Min((idx + 1) * shardSize, |rows|) - Min(idx * shardSize, |rows|)
  {
    assert (idx + 1) * shardSize == idx * shardSize + shardSize;
  }

  lemma {:induction false} TotalOfPrefix<R>(t: Table<R>, rows: seq<R>, k: nat)
    requires t.Serves(rows) && k <= |t.mm|
    ensures Total(t.mm[..k]) <= Min(k * t.shardSize, |rows|)
    ensures t.Complete(rows) ==> Total(t.mm[..k]) == Min(k * t.shardSize, |rows|)
  {
    if k > 0 {
      TotalOfPrefix(t, rows, k - 1);
      assert t.mm[..k][..k - 1] == t.mm[..k - 1];
      ShardLength(rows, t.shardSize, k - 1);
    }
  }

  lemma RowsTotalBound<R>(t: Table<R>, rows: seq<R>)
    requires t.Serves(rows)
    ensures t.RowsTotal() <= |rows|
    ensures t.Complete(rows) ==> t.RowsTotal() == |rows|
  {
    assert t.mm[..|t.mm|] == t.mm;
    TotalOfPrefix(t, rows, |t.mm|);
  }

  /** An in-range id of a shard that is present is found at its local row. */
  lemma LocalRow<R>(t: Table<R>, rows: seq<R>, id: nat, si: nat)
    requires t.Serves(rows) && id < |rows| && t.Present(id) && si == id / t.shardSize
    ensures 0 <= id - si * t.shardSize < |t.mm[si].value| && t.mm[si].value[id - si * t.shardSize] == rows[id]
  {
    BlockBounds(id, t.shardSize);
  }

  lemma CompletePresent<R>(t: Table<R>, rows: seq<R>, id: nat)
    requires t.Complete(rows) && id < |rows|
    ensures t.Present(id)
  {
    Quotient(id, t.shardSize, |t.mm|);
  }

  // ----- what a gather must return -----

  datatype Rejection = OutOfRange | MissingShard

  predicate InRange<R>(t: Table<R>, ids: seq<int>) { forall i :: 0 <= i < |ids| ==> 0 <= ids[i] < t.RowsTotal() }

  predicate AllPresent<R>(t: Table<R>, ids: seq<int>) { forall i :: 0 <= i < |ids| ==> t.Present(ids[i]) }

  /** `r` is what plain indexing of the resident table gives, with the two ways to be refused. */
  ghost predicate Answers<R>(t: Table<R>, rows: seq<R>, ids: seq<int>, r: Result<seq<R>, Rejection>)
    requires t.Serves(rows)
  {
    match r
    case Ok(out) =>
      && InRange(t, ids) && AllPresent(t, ids) && |out| == |ids|
      && forall i :: 0 <= i < |ids| ==> ids[i] < |rows| && out[i] == rows[ids[i]]
    case Err(OutOfRange) => !InRange(t, ids)
    case Err(MissingShard) => InRange(t, ids) && !AllPresent(t, ids)
  }

  /** There is exactly one right answer, and for a complete table it is `rows[ids]` for the in-range lists. */
  lemma AnswerUnique<R>(t: Table<R>, rows: seq<R>, ids: seq<int>, r: Result<seq<R>, Rejection>,
                        r': Result<seq<R>, Rejection>)
    requires t.Serves(rows) && Answers(t, rows, ids, r) && Answers(t, rows, ids, r')
    ensures r == r'
    ensures t.Complete(rows) ==> (r.Ok? <==> forall i :: 0 <= i < |ids| ==> 0 <= ids[i] < |rows|)
  {
    if r.Ok? && r'.Ok? {
      assert r.value == r'.value;
    }
    RowsTotalBound(t, rows);
    if t.Complete(rows) && InRange(t, ids) {
      forall i | 0 <= i < |ids| ensures t.Present(ids[i]) {
        CompletePresent(t, rows, ids[i]);
      }
    }
  }

  // ----- with shards missing -----

  /** A row of the vocabulary whose shard is there. */
  predicate Served<R>(t: Table<R>, rows: seq<R>, id: int) { 0 <= id < |rows| && t.Present(id) }

  /** A missing shard that should hold rows comes before a present one that does. */
  ghost predicate Gap<R>(t: Table<R>, rows: seq<R>, k: nat) {
    exists i, j :: 0 <= i < j < k <= |t.mm| && Hole(t, rows, i) && Full(t, j)
  }

  predicate Hole<R>(t: Table<R>, rows: seq<R>, i: nat) {
    i < |t.mm| && t.mm[i].None? && ExpectedRows(|rows|, t.shardSize, i) > 0
  }

  predicate Full<R>(t: Table<R>, j: nat) { j < |t.mm| && t.mm[j].Some? && |t.mm[j].value| > 0 }

  /** Rows counted over the first `k` shards fall short of where the `k`-th ends if one of them is missing. */
  lemma {:induction false} HoleLowersTotal<R>(t: Table<R>, rows: seq<R>, i: nat, k: nat)
    requires t.Serves(rows) && i < k <= |t.mm| && Hole(t, rows, i)
    ensures Total(t.mm[..k]) < Min(k * t.shardSize, |rows|)
    decreases k
  {
    assert t.mm[..k][..k - 1] == t.mm[..k - 1];
    ShardLength(rows, t.shardSize, k - 1);
    if i < k - 1 {
      HoleLowersTotal(t, rows, i, k - 1);
    } else {
      TotalOfPrefix(t, rows, k - 1);
    }
  }

  /** Without a hole before it, the count reaches where the shard ends. */
  lemma {:induction false} NoHoleFillsTotal<R>(t: Table<R>, rows: seq<R>, k: nat)
    requires t.Serves(rows) && k <= |t.mm| && forall i: nat :: i < k ==> !Hole(t, rows, i)
    ensures Total(t.mm[..k]) == Min(k * t.shardSize, |rows|)
  {
    if k > 0 {
      NoHoleFillsTotal(t, rows, k - 1);
      assert t.mm[..k][..k - 1] == t.mm[..k - 1];
      ShardLength(rows, t.shardSize, k - 1);
      assert !Hole(t, rows, k - 1);
    }
  }

  lemma {:induction false} TotalGrows<R>(mm: seq<Option<seq<R>>>, k: nat)
    requires k <= |mm|
    ensures Total(mm[..k]) <= Total(mm)
    decreases |mm| - k
  {
    if k == |mm| {
      assert mm[..k] == mm;
    } else {
      assert mm[..k + 1][..k] == mm[..k];
      TotalGrows(mm, k + 1);
    }
  }

  /** The last row of a shard that holds rows. */
  lemma LastRow<R>(t: Table<R>, rows: seq<R>, j: nat)
    requires t.Serves(rows) && Full(t, j)
    ensures Served(t, rows, Min((j + 1) * t.shardSize, |rows|) - 1)
  {
    ShardLength(rows, t.shardSize, j);
    var id := Min((j + 1) * t.shardSize, |rows|) - 1;
    assert (j + 1) * t.shardSize == j * t.shardSize + t.shardSize;
    Slot(id, t.shardSize, j);
  }

  lemma {:induction false} GapRefuses<R>(t: Table<R>, rows: seq<R>, k: nat) returns (id: int)
    requires t.Serves(rows) && k <= |t.mm| && Gap(t, rows, k)
    ensures Served(t, rows, id) && id >= Total(t.mm[..k])
    decreases k
  {
    assert t.mm[..k][..k - 1] == t.mm[..k - 1];
    var i, j :| 0 <= i < j < k && Hole(t, rows, i) && Full(t, j);
    if Full(t, k - 1) {
      HoleLowersTotal(t, rows, i, k);
      LastRow(t, rows, k - 1);
      id := Min(k * t.shardSize, |rows|) - 1;
    } else {
      id := GapRefuses(t, rows, k - 1);
    }
  }

  lemma BelowShardEnd(id: nat, size: nat, n: nat)
    requires size > 0 && id < n
    ensures id < Min((id / size + 1) * size, n)
  {
    BlockBounds(id, size);
    assert (id / size + 1) * size == id / size * size + size;
  }

  lemma NoHolesUpTo<R>(t: Table<R>, rows: seq<R>, j: nat)
    requires j < |t.mm| && Full(t, j) && !Gap(t, rows, |t.mm|)
    ensures forall i: nat :: i < j + 1 ==> !Hole(t, rows, i)
  {
  }

  lemma NoGapServes<R>(t: Table<R>, rows: seq<R>, id: nat, j: nat)
    requires t.Serves(rows) && Served(t, rows, id) && !Gap(t, rows, |t.mm|) && j == id / t.shardSize
    ensures id < t.RowsTotal()
  {
    LocalRow(t, rows, id, j);
    assert Full(t, j);
    NoHolesUpTo(t, rows, j);
    NoHoleFillsTotal(t, rows, j + 1);
    TotalGrows(t.mm, j + 1);
    BelowShardEnd(id, t.shardSize, |rows|);
  }

  /**
   * Ids refused as out of range although their shard is there: those from the number of rows
   * found on. There are such ids exactly when a shard that is missing comes before one that is not.
   */
  lemma RefusedThoughServed<R>(t: Table<R>, rows: seq<R>)
    requires t.Serves(rows)
    ensures forall id :: Served(t, rows, id) ==> (Answers(t, rows, [id], Err(OutOfRange)) <==> id >= t.RowsTotal())
    ensures (exists id :: Served(t, rows, id) && Answers(t, rows, [id], Err(OutOfRange))) <==> Gap(t, rows, |t.mm|)
  {
    forall id | Served(t, rows, id) ensures Answers(t, rows, [id], Err(OutOfRange)) <==> id >= t.RowsTotal() {
      assert [id][0] == id;
    }
    if Gap(t, rows, |t.mm|) {
      var id := GapRefuses(t, rows, |t.mm|);
      assert t.mm[..|t.mm|] == t.mm;
    } else {
      forall id | Served(t, rows, id) ensures id < t.RowsTotal() {
        NoGapServes(t, rows, id, id / t.shardSize);
      }
    }
  }

  /** Two rows in two shards, the first shard missing: row 1 is there and refused. */
  lemma RefusedInstance() returns (t: Table<int>, rows: seq<int>)
    ensures t.Serves(rows) && Served(t, rows, 1) && Answers(t, rows, [1], Err(OutOfRange))
  {
    rows := [70, 71];
    t := Table([None, Some([71])], 1, 1, 512);
    assert ShardOf(rows, 1, 1) == [71];
    assert t.mm[..|t.mm| - 1] == [None] && t.mm[..1][..0] == [];
    assert Total(t.mm[..|t.mm| - 1]) == 0;
    assert [1][0] == 1;
  }

  // ----- sort and dedupe -----

  predicate Ascends(s: seq<int>) { forall i, j :: 0 <= i < j < |s| ==> s[i] < s[j] }

  /** `uniq` lists the values of `ids` in ascending order; `inverse` says where each one went. */
  ghost predicate UniqueOf(ids: seq<int>, uniq: seq<int>, inverse: seq<nat>) {
    && Ascends(uniq)
    && |inverse| == |ids|
    && (forall i :: 0 <= i < |ids| ==> inverse[i] < |uniq| && uniq[inverse[i]] == ids[i])
    && (forall k :: 0 <= k < |uniq| ==> uniq[k] in ids)
  }

  method SortedPosition(s: seq<int>, v: int) returns (p: nat)
    requires Ascends(s)
    ensures p <= |s| && (forall k :: 0 <= k < p ==> s[k] < v) && (forall k :: p <= k < |s| ==> v <= s[k])
  {
    p := 0;
    while p < |s| && s[p] < v
      invariant p <= |s| && forall k :: 0 <= k < p ==> s[k] < v
    {
      p := p + 1;
    }
  }

  method Unique(ids: seq<int>) returns (uniq: seq<int>, inverse: seq<nat>)
    ensures UniqueOf(ids, uniq, inverse)
  {
    uniq := [];
    for n := 0 to |ids|
      invariant Ascends(uniq)
      invariant forall v :: v in uniq <==> v in ids[..n]
    {
      var p := SortedPosition(uniq, ids[n]);
      assert ids[..n + 1] == ids[..n] + [ids[n]];
      if p == |uniq| || uniq[p] != ids[n] {
        uniq := uniq[..p] + [ids[n]] + uniq[p..];
      }
    }
    assert ids[..|ids|] == ids;
    inverse := [];
    for n := 0 to |ids|
      invariant |inverse| == n
      invariant forall i :: 0 <= i < n ==> inverse[i] < |uniq| && uniq[inverse[i]] == ids[i]
    {
      assert ids[n] in ids && ids[n] in uniq;
      var p := SortedPosition(uniq, ids[n]);
      inverse := inverse + [p];
    }
  }

  // ----- the inline path -----

  predicate OutsideRange<R>(t: Table<R>, ids: seq<int>) { exists i :: 0 <= i < |ids| && !(0 <= ids[i] < t.RowsTotal()) }

  /** `r` is the row of `id`, found in a shard that is present. */
  ghost predicate Right<R>(t: Table<R>, rows: seq<R>, id: int, r: R) {
    t.Present(id) && id < |rows| && r == rows[id]
  }

  /** Position `i` holds its row. */
  ghost predicate Filled<R>(t: Table<R>, rows: seq<R>, ids: seq<int>, out: seq<R>, i: nat) {
    i < |ids| == |out| && Right(t, rows, ids[i], out[i])
  }

  /** One masked read: the positions whose id lies in shard `si`. */
  method CopyMasked<R>(t: Table<R>, ghost rows: seq<R>, ids: seq<int>, shard: seq<int>, si: nat, out: array<R>)
    requires t.Serves(rows) && |ids| == |shard| == out.Length && si < |t.mm| && t.mm[si].Some? && t.shardSize > 0
    requires forall i :: 0 <= i < |ids| ==> 0 <= ids[i] < |rows| && shard[i] == ids[i] / t.shardSize
    modifies out
    ensures forall i: nat :: i < |ids| && shard[i] == si ==> Filled(t, rows, ids, out[..], i)
    ensures forall i :: 0 <= i < |ids| && shard[i] != si ==> out[i] == old(out[i])
  {
    for i := 0 to |ids|
      invariant forall j: nat :: j < i && shard[j] == si ==> Filled(t, rows, ids, out[..], j)
      invariant forall j :: 0 <= j < |ids| && shard[j] != si ==> out[j] == old(out[j])
    {
      if shard[i] == si {
        LocalRow(t, rows, ids[i], si);
        out[i] := t.mm[si].value[ids[i] - si * t.shardSize];
      }
    }
  }

  /** Small batches: one masked read per distinct shard. */
  method GatherInline<R(0)>(t: Table<R>, ghost rows: seq<R>, ids: seq<int>) returns (r: Result<seq<R>, Rejection>)
    requires t.Serves(rows) && ids != []
    ensures Answers(t, rows, ids, r)
  {
    if OutsideRange(t, ids) {
      return Err(OutOfRange);
    }
    RowsTotalBound(t, rows);
    assert 0 <= ids[0] < |rows|;
    var shard := seq(|ids|, i requires 0 <= i < |ids| => ids[i] / t.shardSize);
    var shards, _ := Unique(shard);
    var out := new R[|ids|];
    for k := 0 to |shards|
      invariant forall i: nat :: i < |ids| && shard[i] in shards[..k] ==> Filled(t, rows, ids, out[..], i)
    {
      var si := shards[k];
      assert si in shard;
      if si >= |t.mm| || t.mm[si].None? {
        return Err(MissingShard);
      }
      assert shards[..k + 1] == shards[..k] + [si];
      CopyMasked(t, rows, ids, shard, si, out);
    }
    AllFilled(t, rows, ids, shard, shards, out[..]);
    return Ok(out[..]);
  }

  lemma AllFilled<R>(t: Table<R>, rows: seq<R>, ids: seq<int>, shard: seq<int>, shards: seq<int>, out: seq<R>)
    requires t.Serves(rows) && InRange(t, ids) && |shard| == |ids| == |out|
    requires forall i :: 0 <= i < |shard| ==> shard[i] in shards
    requires forall i: nat :: i < |ids| && shard[i] in shards[..|shards|] ==> Filled(t, rows, ids, out, i)
    ensures Answers(t, rows, ids, Ok(out))
  {
    assert shards[..|shards|] == shards;
    forall i | 0 <= i < |ids| ensures t.Present(ids[i]) && ids[i] < |rows| && out[i] == rows[ids[i]] {
      assert shard[i] in shards;
      assert Filled(t, rows, ids, out, i);
    }
  }

  // ----- the threaded path -----

  /** Copy unique ids `a..b`, all of shard `shard`. */
  datatype Task = Task(shard: int, a: nat, b: nat) {
    predicate Has(i: int) { a <= i < b }
  }

  /** The tasks cut `0..n` into consecutive non-empty pieces of at most `chunk`, each inside one shard. */
  ghost predicate Cuts(tasks: seq<Task>, shard: seq<int>, chunk: nat, n: nat)
    requires n <= |shard|
    decreases |tasks|
  {
    if tasks == [] then n == 0
    else
      var last := tasks[|tasks| - 1];
      && last.a < last.b == n && n - last.a <= chunk
      && (forall i :: last.a <= i < n ==> shard[i] == last.shard)
      && Cuts(tasks[..|tasks| - 1], shard, chunk, last.a)
  }

  /** Segment by segment of equal shards, chunk by chunk inside a segment. */
  method BuildTasks(shard: seq<int>, chunk: nat) returns (tasks: seq<Task>)
    requires chunk > 0
    ensures Cuts(tasks, shard, chunk, |shard|)
  {
    tasks := [];
    if shard == [] {
      return;
    }
    var bounds := Bounds(shard);
    var starts, ends := [0] + bounds, bounds + [|shard|];
    for k := 0 to |starts|
      invariant Cuts(tasks, shard, chunk, if k == 0 then 0 else ends[k - 1])
    {
      NoBoundInside(bounds, |shard|, k);
      SegmentIsOneShard(shard, bounds, starts[k], ends[k]);
      tasks := CutSegment(shard, chunk, starts[k], ends[k], tasks);
    }
  }

  /** The chunks of one segment, appended to `before`. */
  method CutSegment(shard: seq<int>, chunk: nat, s: nat, e: nat, before: seq<Task>) returns (tasks: seq<Task>)
    requires chunk > 0 && s < e <= |shard| && Cuts(before, shard, chunk, s)
    requires forall i :: s <= i < e ==> shard[i] == shard[s]
    ensures Cuts(tasks, shard, chunk, e)
  {
    tasks := before;
    var c := s;
    while c < e
      invariant s <= c && Cuts(tasks, shard, chunk, Min(c, e))
      decreases e - c
    {
      ghost var was := tasks;
      tasks := tasks + [Task(shard[s], c, Min(c + chunk, e))];
      assert tasks[..|tasks| - 1] == was;
      c := c + chunk;
    }
  }

  /** The positions where a new shard begins, in order. */
  method Bounds(shard: seq<int>) returns (bounds: seq<nat>)
    requires shard != []
    ensures forall k :: 0 <= k < |bounds| ==> 0 < bounds[k] < |shard|
    ensures forall k :: 0 < k < |bounds| ==> bounds[k - 1] < bounds[k]
    ensures forall j :: 0 < j < |shard| && shard[j] != shard[j - 1] ==> j in bounds
  {
    bounds := [];
    for i := 1 to |shard|
      invariant forall k :: 0 <= k < |bounds| ==> 0 < bounds[k] < i
      invariant forall k :: 0 < k < |bounds| ==> bounds[k - 1] < bounds[k]
      invariant forall j :: 0 < j < i && shard[j] != shard[j - 1] ==> j in bounds
    {
      if shard[i] != shard[i - 1] {
        bounds := bounds + [i];
      }
    }
  }

  lemma NoBoundInside(bounds: seq<nat>, n: nat, k: nat)
    requires k <= |bounds| && (forall i :: 0 < i < |bounds| ==> bounds[i - 1] < bounds[i])
    requires forall i :: 0 <= i < |bounds| ==> 0 < bounds[i] < n
    requires n > 0
    ensures ([0] + bounds)[k] < (bounds + [n])[k]
    ensures forall j :: j in bounds ==> j <= ([0] + bounds)[k] || (bounds + [n])[k] <= j
  {
    forall j | j in bounds ensures j <= ([0] + bounds)[k] || (bounds + [n])[k] <= j {
      var i :| 0 <= i < |bounds| && bounds[i] == j;
      BoundsAscend(bounds, i, k - 1);
      BoundsAscend(bounds, k, i);
    }
  }

  lemma BoundsAscend(bounds: seq<nat>, i: int, j: int)
    requires forall k :: 0 < k < |bounds| ==> bounds[k - 1] < bounds[k]
    ensures 0 <= i <= j < |bounds| ==> bounds[i] <= bounds[j]
    decreases j - i
  {
    if 0 <= i < j < |bounds| {
      BoundsAscend(bounds, i, j - 1);
    }
  }

  lemma {:induction false} SegmentIsOneShard(shard: seq<int>, bounds: seq<nat>, s: nat, e: nat)
    requires s < e <= |shard|
    requires forall j :: 0 < j < |shard| && shard[j] != shard[j - 1] ==> j in bounds
    requires forall j :: j in bounds ==> j <= s || e <= j
    ensures forall i :: s <= i < e ==> shard[i] == shard[s]
    decreases e
  {
    if s + 1 < e {
      SegmentIsOneShard(shard, bounds, s, e - 1);
      assert e - 1 !in bounds;
      assert shard[e - 1] == shard[e - 1 - 1];
    }
  }

  /** Each position below `n` belongs to exactly one task. */
  lemma {:induction false} CutsPartition(tasks: seq<Task>, shard: seq<int>, chunk: nat, n: nat)
    requires n <= |shard| && Cuts(tasks, shard, chunk, n)
    ensures forall k :: 0 <= k < |tasks| ==> PieceOf(tasks[k], shard, chunk, n)
    ensures forall k, l, i :: 0 <= k < l < |tasks| && tasks[k].Has(i) ==> !tasks[l].Has(i)
    ensures forall i: nat :: i < n ==> HasOwner(tasks, i)
    decreases |tasks|
  {
    if tasks != [] {
      var front, last := tasks[..|tasks| - 1], tasks[|tasks| - 1];
      CutsPartition(front, shard, chunk, last.a);
      forall k | 0 <= k < |tasks| ensures PieceOf(tasks[k], shard, chunk, n) {
        if k < |front| {
          assert PieceOf(front[k], shard, chunk, last.a);
        }
      }
      forall k, l, i | 0 <= k < l < |tasks| && tasks[k].Has(i) ensures !tasks[l].Has(i) {
        assert front[k].Has(i);
        if l < |front| {
          assert !front[l].Has(i);
        } else {
          assert PieceOf(front[k], shard, chunk, last.a);
        }
      }
      forall i: nat | i < n ensures HasOwner(tasks, i) {
        if i < last.a {
          assert HasOwner(front, i);
          var k :| 0 <= k < |front| && front[k].Has(i);
          assert tasks[k].Has(i);
        } else {
          assert tasks[|tasks| - 1].Has(i);
        }
      }
    }
  }

  ghost predicate PieceOf(task: Task, shard: seq<int>, chunk: nat, n: nat) {
    task.a < task.b <= n <= |shard| && task.b - task.a <= chunk && forall i :: task.a <= i < task.b ==>
      shard[i] == task.shard
  }

  ghost predicate HasOwner(tasks: seq<Task>, i: nat) { exists k :: 0 <= k < |tasks| && tasks[k].Has(i) }

  /** What a lookup works on: unique in-range ids and the shard of each. */
  ghost predicate Lookup<R>(t: Table<R>, rows: seq<R>, uniq: seq<int>, shard: seq<int>) {
    && t.Serves(rows) && t.shardSize > 0 && |uniq| == |shard|
    && forall i :: 0 <= i < |uniq| ==> 0 <= uniq[i] < |rows| && shard[i] == uniq[i] / t.shardSize
  }

  /** One thread task: a slice of the output filled from one shard, or a refusal. */
  method RunTask<R>(t: Table<R>, ghost rows: seq<R>, uniq: seq<int>, shard: seq<int>, task: Task, out: array<R>)
    returns (ok: bool)
    requires Lookup(t, rows, uniq, shard) && out.Length == |uniq| && PieceOf(task, shard, t.chunk, |uniq|)
    modifies out
    ensures ok ==> TaskDone(t, rows, uniq, task, out[..])
    ensures !ok ==> !t.Present(uniq[task.a])
    ensures forall i :: 0 <= i < |uniq| && !task.Has(i) ==> out[i] == old(out[i])
  {
    var si := task.shard;
    assert shard[task.a] == si;
    if si >= |t.mm| || t.mm[si].None? {
      return false;
    }
    for i := task.a to task.b
      invariant forall j :: task.a <= j < i ==> Right(t, rows, uniq[j], out[j])
      invariant forall j :: 0 <= j < |uniq| && !task.Has(j) ==> out[j] == old(out[j])
    {
      assert shard[i] == si;
      LocalRow(t, rows, uniq[i], si);
      out[i] := t.mm[si].value[uniq[i] - si * t.shardSize];
    }
    return true;
  }

  ghost predicate TaskDone<R>(t: Table<R>, rows: seq<R>, uniq: seq<int>, task: Task, out: seq<R>) {
    forall i: nat :: task.Has(i) ==> Filled(t, rows, uniq, out, i)
  }

  lemma DoneElsewhere<R>(t: Table<R>, rows: seq<R>, uniq: seq<int>, task: Task, other: Task, was: seq<R>, out: seq<R>)
    requires forall i :: task.Has(i) ==> !other.Has(i)
    requires |was| == |out| == |uniq| && TaskDone(t, rows, uniq, task, was)
    requires forall i :: 0 <= i < |uniq| && !other.Has(i) ==> out[i] == was[i]
    ensures TaskDone(t, rows, uniq, task, out)
  {
    forall i: nat | task.Has(i) ensures Filled(t, rows, uniq, out, i) {
      assert Filled(t, rows, uniq, was, i);
    }
  }

  /** The pool: all tasks, in any order. */
  method RunTasks<R>(t: Table<R>, ghost rows: seq<R>, uniq: seq<int>, shard: seq<int>, tasks: seq<Task>,
                     order: seq<nat>, out: array<R>)
    returns (ok: bool)
    requires Lookup(t, rows, uniq, shard) && out.Length == |uniq|
    requires Cuts(tasks, shard, t.chunk, |uniq|) && IsOrder(order, |tasks|)
    modifies out
    ensures ok <==> AllPresent(t, uniq)
    ensures ok ==> forall i: nat :: i < |uniq| ==> Filled(t, rows, uniq, out[..], i)
  {
    CutsPartition(tasks, shard, t.chunk, |uniq|);
    for n := 0 to |order|
      invariant forall m :: 0 <= m < n ==> TaskDone(t, rows, uniq, tasks[order[m]], out[..])
    {
      ghost var was := out[..];
      ok := RunTask(t, rows, uniq, shard, tasks[order[n]], out);
      if !ok {
        return false;
      }
      forall m | 0 <= m < n ensures TaskDone(t, rows, uniq, tasks[order[m]], out[..]) {
        DoneElsewhere(t, rows, uniq, tasks[order[m]], tasks[order[n]], was, out[..]);
      }
    }
    AllDone(t, rows, uniq, tasks, order, out[..]);
    return true;
  }

  lemma AllDone<R>(t: Table<R>, rows: seq<R>, uniq: seq<int>, tasks: seq<Task>, order: seq<nat>, out: seq<R>)
    requires IsOrder(order, |tasks|) && |out| == |uniq| && forall i: nat :: i < |uniq| ==> HasOwner(tasks, i)
    requires forall m :: 0 <= m < |order| ==> TaskDone(t, rows, uniq, tasks[order[m]], out)
    ensures AllPresent(t, uniq) && forall i: nat :: i < |uniq| ==> Filled(t, rows, uniq, out, i)
  {
    forall i: nat | i < |uniq| ensures Filled(t, rows, uniq, out, i) && t.Present(uniq[i]) {
      assert HasOwner(tasks, i);
      var k: nat :| k < |tasks| && tasks[k].Has(i);
      assert k in order;
      var m :| 0 <= m < |order| && order[m] == k;
      assert TaskDone(t, rows, uniq, tasks[order[m]], out);
    }
  }

  /** Large batches: sort, dedupe, cut into tasks, run them in whatever order `pool` picks, expand. */
  method GatherPooled<R(0)>(t: Table<R>, ghost rows: seq<R>, ids: seq<int>, pool: nat -> seq<nat>)
    returns (r: Result<seq<R>, Rejection>)
    requires t.Serves(rows) && ids != [] && forall n :: IsOrder(pool(n), n)
    ensures Answers(t, rows, ids, r)
  {
    var uniq, inverse := Unique(ids);
    EndsTell(t, rows, ids, uniq, inverse);
    if uniq[0] < 0 || uniq[|uniq| - 1] >= t.RowsTotal() {
      return Err(OutOfRange);
    }
    r := GatherUnique(t, rows, ids, uniq, inverse, pool);
  }

  /** The ends of the sorted list decide whether the whole request is in range. */
  lemma EndsTell<R>(t: Table<R>, rows: seq<R>, ids: seq<int>, uniq: seq<int>, inverse: seq<nat>)
    requires t.Serves(rows) && ids != [] && UniqueOf(ids, uniq, inverse)
    ensures uniq != []
    ensures InRange(t, ids) <==> 0 <= uniq[0] && uniq[|uniq| - 1] < t.RowsTotal()
    ensures InRange(t, ids) <==> InRange(t, uniq)
    ensures t.RowsTotal() <= |rows|
  {
    RowsTotalBound(t, rows);
    assert uniq[inverse[0]] == ids[0];
    if 0 <= uniq[0] && uniq[|uniq| - 1] < t.RowsTotal() {
      assert forall k :: 0 <= k < |uniq| ==> uniq[0] <= uniq[k] <= uniq[|uniq| - 1];
      assert InRange(t, uniq);
    }
    if InRange(t, uniq) {
      forall i | 0 <= i < |ids| ensures 0 <= ids[i] < t.RowsTotal() {
        assert uniq[inverse[i]] == ids[i];
      }
    }
    if InRange(t, ids) {
      forall k | 0 <= k < |uniq| ensures 0 <= uniq[k] < t.RowsTotal() {
        assert uniq[k] in ids;
      }
    }
  }

  /** The rows of distinct in-range ids, cut into tasks and read by the pool. */
  method ReadUnique<R(0)>(t: Table<R>, ghost rows: seq<R>, uniq: seq<int>, pool: nat -> seq<nat>)
    returns (ok: bool, read: seq<R>)
    requires t.Serves(rows) && t.shardSize > 0 && forall n :: IsOrder(pool(n), n)
    requires forall i :: 0 <= i < |uniq| ==> 0 <= uniq[i] < |rows|
    ensures ok <==> AllPresent(t, uniq)
    ensures ok ==> forall i: nat :: i < |uniq| ==> Filled(t, rows, uniq, read, i)
  {
    var shard := seq(|uniq|, i requires 0 <= i < |uniq| => uniq[i] / t.shardSize);
    var out := new R[|uniq|];
    var tasks := BuildTasks(shard, t.chunk);
    ok := RunTasks(t, rows, uniq, shard, tasks, pool(|tasks|), out);
    read := out[..];
  }

  method GatherUnique<R(0)>(t: Table<R>, ghost rows: seq<R>, ids: seq<int>, uniq: seq<int>, inverse: seq<nat>,
                        pool: nat -> seq<nat>)
    returns (r: Result<seq<R>, Rejection>)
    requires t.Serves(rows) && UniqueOf(ids, uniq, inverse) && uniq != [] && forall n :: IsOrder(pool(n), n)
    requires InRange(t, ids) && InRange(t, uniq) && t.RowsTotal() <= |rows|
    ensures Answers(t, rows, ids, r)
  {
    assert 0 <= uniq[0] < |rows|;
    var ok, read := ReadUnique(t, rows, uniq, pool);
    SamePresence(t, ids, uniq, inverse);
    if !ok {
      return Err(MissingShard);
    }
    FilledLength(t, rows, uniq, read);
    var expanded := seq(|ids|, i requires 0 <= i < |ids| => read[inverse[i]]);
    ExpandAnswers(t, rows, ids, uniq, inverse, read, expanded);
    return Ok(expanded);
  }

  lemma FilledLength<R>(t: Table<R>, rows: seq<R>, uniq: seq<int>, read: seq<R>)
    requires uniq != [] && forall i: nat :: i < |uniq| ==> Filled(t, rows, uniq, read, i)
    ensures |read| == |uniq|
  {
    assert Filled(t, rows, uniq, read, 0);
  }

  lemma SamePresence<R>(t: Table<R>, ids: seq<int>, uniq: seq<int>, inverse: seq<nat>)
    requires UniqueOf(ids, uniq, inverse)
    ensures AllPresent(t, ids) <==> AllPresent(t, uniq)
  {
    if AllPresent(t, ids) {
      forall k | 0 <= k < |uniq| ensures t.Present(uniq[k]) {
        assert uniq[k] in ids;
      }
    }
    if AllPresent(t, uniq) {
      forall i | 0 <= i < |ids| ensures t.Present(ids[i]) {
        assert uniq[inverse[i]] == ids[i];
      }
    }
  }

  lemma ExpandAnswers<R>(t: Table<R>, rows: seq<R>, ids: seq<int>, uniq: seq<int>, inverse: seq<nat>, out: seq<R>,
                         expanded: seq<R>)
    requires t.Serves(rows) && UniqueOf(ids, uniq, inverse) && InRange(t, uniq) && |out| == |uniq|
    requires forall i: nat :: i < |uniq| ==> Filled(t, rows, uniq, out, i)
    requires |expanded| == |ids| && forall i :: 0 <= i < |ids| ==> expanded[i] == out[inverse[i]]
    ensures Answers(t, rows, ids, Ok(expanded))
  {
    forall i | 0 <= i < |ids|
      ensures 0 <= ids[i] < t.RowsTotal() && t.Present(ids[i]) && ids[i] < |rows| && expanded[i] == rows[ids[i]]
    {
      assert Filled(t, rows, uniq, out, inverse[i]);
    }
  }

  /** A gather: nothing for nothing, inline up to `fastRows` ids, threaded beyond. */
  method Gather<R(0)>(t: Table<R>, ghost rows: seq<R>, ids: seq<int>, pool: nat -> seq<nat>)
    returns (r: Result<seq<R>, Rejection>)
    requires t.Serves(rows) && forall n :: IsOrder(pool(n), n)
    ensures Answers(t, rows, ids, r)
  {
    if ids == [] {
      r := Ok([]);
    } else if |ids| <= t.fastRows {
      r := GatherInline(t, rows, ids);
    } else {
      r := GatherPooled(t, rows, ids, pool);
    }
  }

  // ----- the placeholder -----

  /** Stands in for the embedding: deduplicates, gathers, stages on a reused buffer, expands. */
  class Placeholder<R(0)> {
    var table: Option<Table<R>>
    var pinned: array?<R>
    var pinnedWidth: nat

    constructor ()
      ensures table == None && pinned == null
    {
      table, pinned, pinnedWidth := None, null, 0;
    }

    /** A buffer of at least `need` rows: the old one if it fits, a larger one, or none if pinning fails. */
    method PinnedBuffer(need: nat, width: nat, canPin: bool) returns (buf: array?<R>)
      modifies this`pinned, this`pinnedWidth
      ensures buf == pinned
      ensures if old(pinned) != null && old(pinned.Length) >= need && old(pinnedWidth) == width then
                buf == old(pinned) && pinnedWidth == width
              else if canPin then
                buf != null && fresh(buf) && buf.Length >= need && buf.Length >= 4096 && pinnedWidth == width
              else buf == null
    {
      buf := pinned;
      if buf == null || buf.Length < need || pinnedWidth != width {
        if canPin {
          var capacity := if need + need / 2 < 4096 then 4096 else need + need / 2;
          buf := new R[capacity];
          pinnedWidth := width;
        } else {
          buf := null;
        }
        pinned := buf;
      }
    }

    /** A forward call answers as the resident table would, whatever earlier calls left in the buffer. */
    method Forward(ghost rows: seq<R>, ids: seq<int>, zero: R, width: nat, onDevice: bool, canPin: bool,
                   pool: nat -> seq<nat>)
      returns (r: Result<seq<R>, Rejection>)
      requires table.Some? ==> table.value.Serves(rows)
      requires forall n :: IsOrder(pool(n), n)
      modifies this`pinned, this`pinnedWidth, pinned
      ensures table == old(table)
      ensures pinned == null || pinned == old(pinned) || fresh(pinned)
      ensures match table
              case None => r == Ok(seq(|ids|, i => zero))
              case Some(t) => Answers(t, rows, ids, r)
    {
      if table.None? {
        return Ok(seq(|ids|, i => zero));
      }
      var t := table.value;
      var uniq, inverse := Unique(ids);
      var read := Gather(t, rows, uniq, pool);
      if read.Err? {
        RefusedAlike(t, rows, ids, uniq, inverse, read.error);
        return read;
      }
      var staged := read.value;
      if onDevice {
        var buf := PinnedBuffer(|staged|, width, canPin);
        if buf != null {
          forall i | 0 <= i < |staged| { buf[i] := staged[i]; }
          staged := buf[..|staged|];
          assert staged == read.value;
        }
      }
      r := Ok(seq(|ids|, i requires 0 <= i < |ids| => staged[inverse[i]]));
      ExpandedAnswer(t, rows, ids, uniq, inverse, read.value, r.value);
    }

    /** Any number of calls in a row. */
    method ForwardAll(ghost rows: seq<R>, calls: seq<seq<int>>, zero: R, width: nat, onDevice: bool, canPin: seq<bool>,
                      pool: nat -> seq<nat>)
      returns (rs: seq<Result<seq<R>, Rejection>>)
      requires table.Some? && table.value.Serves(rows) && |canPin| == |calls|
      requires forall n :: IsOrder(pool(n), n)
      modifies this`pinned, this`pinnedWidth, pinned
      ensures |rs| == |calls| && forall k :: 0 <= k < |calls| ==> Answers(old(table).value, rows, calls[k], rs[k])
    {
      rs := [];
      for k := 0 to |calls|
        invariant table == old(table) && (pinned == null || pinned == old(pinned) || fresh(pinned))
        invariant |rs| == k && forall j :: 0 <= j < k ==> Answers(table.value, rows, calls[j], rs[j])
      {
        var r := Forward(rows, calls[k], zero, width, onDevice, canPin[k], pool);
        rs := rs + [r];
      }
    }
  }

  lemma RefusedAlike<R>(t: Table<R>, rows: seq<R>, ids: seq<int>, uniq: seq<int>, inverse: seq<nat>, e: Rejection)
    requires t.Serves(rows) && UniqueOf(ids, uniq, inverse) && Answers(t, rows, uniq, Err(e))
    ensures Answers(t, rows, ids, Err(e))
  {
    if ids != [] {
      EndsTell(t, rows, ids, uniq, inverse);
    }
    SamePresence(t, ids, uniq, inverse);
  }

  lemma ExpandedAnswer<R>(t: Table<R>, rows: seq<R>, ids: seq<int>, uniq: seq<int>, inverse: seq<nat>, read: seq<R>,
                          expanded: seq<R>)
    requires t.Serves(rows) && UniqueOf(ids, uniq, inverse) && Answers(t, rows, uniq, Ok(read))
    requires |expanded| == |ids| && forall i :: 0 <= i < |ids| ==> expanded[i] == read[inverse[i]]
    ensures Answers(t, rows, ids, Ok(expanded))
  {
    ExpandAnswers(t, rows, ids, uniq, inverse, read, expanded);
  }
}
