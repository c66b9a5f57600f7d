// The state columns of one request in align mode: pre-copy, forward, accept, save,
// and the re-seeding that resumes and prefix hits perform.
module AlignColumns {
  import opened Arithmetic
  import opened Wrappers

  // ----- column arithmetic -----

  /** The column a step runs in: the block holding the last scheduled token. */
  function RunningColumn(total: nat, blockSize: nat): int
    requires blockSize > 0
  {
    Cdiv(total, blockSize) - 1
  }

  /** Where a request without a recorded column takes its state from; -1 when nothing is computed. */
  function SeedColumn(computed: nat, blockSize: nat): int
    requires blockSize > 0
  {
    (computed - 1) / blockSize
  }

  /** The save decided after acceptance: copy `(column, bias)` to `dst`. */
  datatype Save = Save(bias: nat, dst: int)

  function PostDecision(computed: nat, scheduled: nat, draft: nat, accepted: nat, blockSize: nat): Option<Save>
    requires blockSize > 0 && draft < scheduled && accepted >= 1
  {
    var running := computed + scheduled - draft;
    var aligned := (running + accepted - 1) / blockSize * blockSize;
    if aligned >= running then Some(Save(aligned - running, aligned / blockSize - 1)) else None
  }

  lemma ColumnSpan(total: nat, b: nat)
    requires b > 0 && total > 0
    ensures var c := RunningColumn(total, b); c >= 0 && c * b < total <= c * b + b
  {
    CdivBounds(total, b);
    Multiples(0, Cdiv(total, b), b);
  }

  lemma PostLinear(c: int, q: int, cb: int, qb: int, b: int, running: int, after: int, total: int)
    requires b > 0 && 0 < running <= after <= total
    requires cb < total <= cb + b && qb <= after < qb + b && running <= qb
    requires (c < q <==> cb < qb) && (c < q <==> cb + b <= qb) && (c + 1 < q <==> cb + b < qb)
    requires (c < q + 1 <==> cb < qb + b) && (0 < q <==> 0 < qb)
    ensures 0 <= q - 1 <= c
    ensures q - 1 == c <==> after == total && after == qb
    ensures total - running < b ==> c <= q
  {
  }

  /** Everything the save relies on, for every step. */
  lemma PostArithmetic(computed: nat, scheduled: nat, draft: nat, accepted: nat, b: nat)
    requires b > 0 && draft < scheduled && 1 <= accepted <= draft + 1
    ensures var column := RunningColumn(computed + scheduled, b);
            var after := computed + scheduled - draft + accepted - 1;
            match PostDecision(computed, scheduled, draft, accepted, b)
            case Some(save) =>
              && save.bias <= accepted - 1
              && 0 <= save.dst <= column
              && (save.dst + 1) * b == computed + scheduled - draft + save.bias <= after < (save.dst + 1) * b + b
              && (save.dst == column <==> accepted == draft + 1 && after % b == 0)
              && (draft < b ==> column <= save.dst + 1)
            case None => forall m: nat {:trigger m * b} :: !(computed + scheduled - draft <= m * b <= after)
  {
    var c := RunningColumn(computed + scheduled, b);
    var running := computed + scheduled - draft;
    var after := running + accepted - 1;
    var q := after / b;
    BlockBounds(after, b);
    PostDecisionByBlock(computed, scheduled, draft, accepted, b);
    if q * b >= running {
      SavedColumnBounds(c, q, b, running, after, computed + scheduled);
      Remainder(after, q, b);
    } else {
      forall m: nat | m * b <= after ensures m * b < running {
        Multiples(q, m, b);
      }
    }
  }

  lemma PostDecisionByBlock(computed: nat, scheduled: nat, draft: nat, accepted: nat, b: nat)
    requires b > 0 && draft < scheduled && accepted >= 1
    ensures var running := computed + scheduled - draft;
            var q := (running + accepted - 1) / b;
            PostDecision(computed, scheduled, draft, accepted, b)
            == if q * b >= running then Some(Save(q * b - running, q - 1)) else None
  {
    var q := (computed + scheduled - draft + accepted - 1) / b;
    Slot(q * b, b, q);
  }

  lemma SavedColumnBounds(c: int, q: int, b: nat, running: int, after: int, total: int)
    requires b > 0 && 0 < running <= after <= total && c == RunningColumn(total, b)
    requires q * b <= after < q * b + b && running <= q * b
    ensures 0 <= q - 1 <= c
    ensures q - 1 == c <==> after == total && after == q * b
    ensures total - running < b ==> c <= q
  {
    ColumnSpan(total, b);
    Multiples(c, q, b);
    Multiples(c + 1, q, b);
    Multiples(c, q + 1, b);
    Multiples(0, q, b);
    PostLinear(c, q, c * b, q * b, b, running, after, total);
  }

  lemma Remainder(n: nat, q: nat, b: nat)
    requires b > 0 && q == n / b
    ensures n % b == 0 <==> n == q * b
  {
  }

  /** The seed is the column of the last computed block ... */
  lemma SeedIsLastBlock(m: nat, b: nat)
    requires b > 0
    ensures SeedColumn(m * b, b) == m - 1
  {
    if m > 0 {
      Slot(m * b - 1, b, m - 1);
    }
  }

  /**
   * ... and only when it is computed with the state's own block size: with another
   * group's block size `g` dividing it, a hit of `m` blocks is seeded right iff `g == b`.
   */
  lemma SeedNeedsOwnBlockSize(m: nat, g: nat, k: nat)
    requires m > 0 && g > 0 && k > 0
    ensures SeedColumn(m * (k * g), g) == m - 1 <==> g == k * g
  {
    assert m * (k * g) == m * k * g;
    SeedIsLastBlock(m * k, g);
    if m * k == m {
      assert k == 1;
    }
  }

  // ----- contents of the columns -----

  datatype Kind = Temporal | Conv

  /**
   * A column's content. A temporal column is the state after exactly the tokens
   * `base`; a convolution window can also be read `k` tokens further, for `k <= |look|`.
   */
  datatype Cell<T> = Cell(base: seq<T>, look: seq<T>)

  type Columns<T> = map<int, Cell<T>>

  /** The state found at `(col, bias)`, as the tokens it has consumed. */
  function ReadAt<T>(kind: Kind, cols: Columns<T>, col: int, bias: nat): Option<seq<T>> {
    match kind
    case Temporal => if col + bias in cols then Some(cols[col + bias].base) else None
    case Conv => if col in cols && bias <= |cols[col].look| then Some(cols[col].base + cols[col].look[..bias]) else None
  }

  /** The shared copy: select a column (temporal) or shift the window (convolution); unknown bytes stay unknown. */
  function CopyState<T>(kind: Kind, cols: Columns<T>, src: int, dst: int, bias: nat): Columns<T> {
    match kind
    case Temporal =>
      if src + bias in cols then cols[dst := Cell(cols[src + bias].base, [])] else cols - {dst}
    case Conv =>
      if src in cols && bias <= |cols[src].look| then
        cols[dst := Cell(cols[src].base + cols[src].look[..bias], cols[src].look[bias..])]
      else cols - {dst}
  }

  /**
   * One request: its computed tokens, the accepted count of the last step, the
   * recorded running column, the drafts the last step rejected, its columns, and
   * the columns that post-processing saved.
   */
  datatype Request<T> = Request(tokens: seq<T>, accepted: nat, column: Option<int>, rejected: nat,
                                cols: Columns<T>, saved: set<int>)

  function Fresh<T>(): Request<T> { Request([], 1, None, 0, map[], {}) }

  function PrevColumn<T>(r: Request<T>, blockSize: nat): int
    requires blockSize > 0
  {
    match r.column
    case Some(c) => c
    case None => SeedColumn(|r.tokens|, blockSize)
  }

  /** Before the forward pass: move to the new running column, carrying the state along. */
  function PreCopy<T>(kind: Kind, blockSize: nat, r: Request<T>, scheduled: nat): Request<T>
    requires blockSize > 0 && r.accepted >= 1
  {
    var prev := PrevColumn(r, blockSize);
    var curr := RunningColumn(|r.tokens| + scheduled, blockSize);
    if prev != -1 && prev != curr then
      r.(column := Some(curr), accepted := 1, cols := CopyState(kind, r.cols, prev, curr, r.accepted - 1))
    else
      r.(column := Some(curr))
  }

  predicate InWindow(c: int, column: int, draft: nat) { column <= c <= column + draft }

  /**
   * The forward pass, as its contract states it: it starts from the state at
   * `(column, accepted - 1)` (the empty state when nothing is computed) and leaves
   * the state after every draft prefix. Garbage in, garbage out.
   */
  function Forward<T>(kind: Kind, r: Request<T>, column: int, chunk: seq<T>, draft: nat): Columns<T>
    requires draft < |chunk| && r.accepted >= 1
  {
    var start := if r.tokens == [] then Some([]) else ReadAt(kind, r.cols, column, r.accepted - 1);
    var sure := |chunk| - draft;
    match start
    case None => r.cols - (set c | column <= c <= column + draft && InWindow(c, column, draft))
    case Some(s) =>
      match kind
      case Temporal => 
        r.cols + map c | column <= c <= column + draft && InWindow(c, column, draft) ::
          Cell(s + chunk[..sure + (c - column)], [])
      case Conv => r.cols[column := Cell(s + chunk[..sure], chunk[sure..])]
  }

  /** After acceptance: advance the token count and save the block-aligned state. */
  function PostCopy<T>(kind: Kind, blockSize: nat, r: Request<T>, column: int, chunk: seq<T>, draft: nat,
                       accepted: nat): Request<T>
    requires blockSize > 0 && draft < |chunk| && 1 <= accepted <= draft + 1
  {
    var r' := r.(tokens := r.tokens + chunk[..|chunk| - draft + accepted - 1], accepted := accepted,
                   rejected := draft + 1 - accepted);
    match PostDecision(|r.tokens|, |chunk|, draft, accepted, blockSize)
    case None => r'
    case Some(save) =>
      r'.(accepted := if column == save.dst then 1 else accepted,
          cols := if column == save.dst && save.bias == 0 then r.cols
            else CopyState(kind, r.cols, column, save.dst, save.bias),
          saved := r.saved + {save.dst})
  }

  // ----- runs -----

  /**
   * `Step` schedules `chunk`, whose last `draft` tokens are drafts, and accepts
   * `accepted - 1` of them. `Resume` restarts from the first `blocks` blocks, as a
   * preempted request does or another request that hits the same prefix: only the
   * columns in `kept` and the hit's own block are still there.
   */
  datatype Event<T> =
    | Step(chunk: seq<T>, draft: nat, accepted: nat)
    | Resume(blocks: nat, kept: set<int>)

  predicate Enabled<T>(blockSize: nat, r: Request<T>, e: Event<T>) {
    match e
    case Step(chunk, draft, accepted) => draft < |chunk| && 1 <= accepted <= draft + 1
    case Resume(blocks, _) => blocks * blockSize <= |r.tokens| && (blocks == 0 || blocks - 1 in r.saved)
  }

  function EngineStep<T>(kind: Kind, blockSize: nat, r: Request<T>, chunk: seq<T>, draft: nat,
                         accepted: nat): Request<T>
    requires blockSize > 0 && r.accepted >= 1 && draft < |chunk| && 1 <= accepted <= draft + 1
  {
    var column := RunningColumn(|r.tokens| + |chunk|, blockSize);
    var ready := PreCopy(kind, blockSize, r, |chunk|);
    PostCopy(kind, blockSize, ready.(cols := Forward(kind, ready, column, chunk, draft)), column, chunk, draft,
             accepted)
  }

  function Restart<T>(blockSize: nat, r: Request<T>, blocks: nat, kept: set<int>): Request<T>
    requires blocks * blockSize <= |r.tokens|
  {
    var alive := kept + {blocks - 1};
    Request(r.tokens[..blocks * blockSize], 1, None, 0,
            map c | c in r.cols && c in alive :: r.cols[c],
            set d | d in r.saved && d in alive && d < blocks)
  }

  function Next<T>(kind: Kind, blockSize: nat, r: Request<T>, e: Event<T>): (r': Request<T>)
    requires blockSize > 0 && r.accepted >= 1 && Enabled(blockSize, r, e)
    ensures r'.accepted >= 1
  {
    match e
    case Step(chunk, draft, accepted) => EngineStep(kind, blockSize, r, chunk, draft, accepted)
    case Resume(blocks, kept) => Restart(blockSize, r, blocks, kept)
  }

  /** The request after `events`, or `None` when one of them was not enabled. */
  function Run<T>(kind: Kind, blockSize: nat, events: seq<Event<T>>): (r: Option<Request<T>>)
    requires blockSize > 0
    ensures r.Some? ==> r.value.accepted >= 1
  {
    if events == [] then Some(Fresh())
    else
      var before := Run(kind, blockSize, events[..|events| - 1]);
      if before.Some? && Enabled(blockSize, before.value, events[|events| - 1]) then
        Some(Next(kind, blockSize, before.value, events[|events| - 1]))
      else None
  }

  // ----- the invariant -----

  /** Column `d` holds the state after its own last token. */
  ghost predicate SavedRight<T>(blockSize: nat, r: Request<T>, d: int) {
    0 <= d && (d + 1) * blockSize <= |r.tokens| && d in r.cols && r.cols[d].base == r.tokens[..(d + 1) * blockSize]
  }

  ghost predicate Exact<T>(kind: Kind, blockSize: nat, r: Request<T>)
    requires blockSize > 0
  {
    && r.accepted >= 1
    && (r.column.Some? ==> r.tokens != [] && r.column.value == RunningColumn(|r.tokens| + r.rejected, blockSize))
    && (r.tokens != [] ==> ReadAt(kind, r.cols, PrevColumn(r, blockSize), r.accepted - 1) == Some(r.tokens))
    && (r.column == None ==> r.accepted == 1 && |r.tokens| % blockSize == 0)
    && (forall d :: d in r.saved ==> SavedRight(blockSize, r, d))
  }

  ghost predicate SameCell<T>(r: Request<T>, r': Request<T>, d: int) {
    d in r.cols && d in r'.cols && r'.cols[d] == r.cols[d]
  }

  /** The step's column lies behind every saved block. */
  lemma BehindSaved(computed: nat, scheduled: nat, b: nat, d: int)
    requires b > 0 && scheduled > 0 && 0 <= d && (d + 1) * b <= computed
    ensures d < RunningColumn(computed + scheduled, b)
  {
    ColumnSpan(computed + scheduled, b);
    Multiples(RunningColumn(computed + scheduled, b), d + 1, b);
  }

  lemma CopyDelivers<T>(kind: Kind, cols: Columns<T>, src: int, dst: int, bias: nat, s: seq<T>)
    requires ReadAt(kind, cols, src, bias) == Some(s)
    ensures var cols' := CopyState(kind, cols, src, dst, bias);
            dst in cols' && cols'[dst].base == s && ReadAt(kind, cols', dst, 0) == Some(s)
  {
    assert s + [] == s;
  }

  lemma CopyKeeps<T>(kind: Kind, cols: Columns<T>, src: int, dst: int, bias: nat, c: int)
    requires c != dst
    ensures var cols' := CopyState(kind, cols, src, dst, bias);
            (c in cols <==> c in cols') && (c in cols ==> cols'[c] == cols[c])
  {
  }

  /** After pre-copy the forward pass finds the request's state where it looks for it. */
  lemma PreCopyReady<T>(kind: Kind, b: nat, r: Request<T>, scheduled: nat)
    requires b > 0 && scheduled > 0 && Exact(kind, b, r)
    ensures var ready := PreCopy(kind, b, r, scheduled);
            var column := RunningColumn(|r.tokens| + scheduled, b);
            && ready.tokens == r.tokens && ready.saved == r.saved && ready.column == Some(column)
            && (r.tokens != [] ==> ReadAt(kind, ready.cols, column, ready.accepted - 1) == Some(r.tokens))
            && (forall d :: d in r.saved ==> d < column && SameCell(r, ready, d))
  {
    var prev, column := PrevColumn(r, b), RunningColumn(|r.tokens| + scheduled, b);
    if r.tokens != [] {
      PrevColumnInRow(kind, b, r);
      if prev != column {
        CopyDelivers(kind, r.cols, prev, column, r.accepted - 1, r.tokens);
      }
    }
    forall d | d in r.saved ensures d < column {
      assert SavedRight(b, r, d);
      BehindSaved(|r.tokens|, scheduled, b, d);
    }
  }

  lemma PrevColumnInRow<T>(kind: Kind, b: nat, r: Request<T>)
    requires b > 0 && Exact(kind, b, r) && r.tokens != []
    ensures PrevColumn(r, b) >= 0
  {
    if r.column.Some? {
      ColumnSpan(|r.tokens| + r.rejected, b);
    } else {
      SeedIsLastBlock(|r.tokens| / b, b);
    }
  }

  /** The forward pass leaves the state after every draft prefix, and touches no saved column. */
  lemma ForwardWrites<T>(kind: Kind, r: Request<T>, column: int, chunk: seq<T>, draft: nat, k: nat)
    requires draft < |chunk| && k <= draft && r.accepted >= 1
    requires r.tokens != [] ==> ReadAt(kind, r.cols, column, r.accepted - 1) == Some(r.tokens)
    ensures ReadAt(kind, Forward(kind, r, column, chunk, draft), column, k)
              == Some(r.tokens + chunk[..|chunk| - draft + k])
    ensures forall c :: c < column ==> var cols := Forward(kind, r, column, chunk, draft);
                                       (c in cols <==> c in r.cols) && (c in r.cols ==> cols[c] == r.cols[c])
  {
    var sure := |chunk| - draft;
    assert chunk[..sure + k] == chunk[..sure] + chunk[sure..][..k];
    assert r.tokens + chunk[..sure + k] == (r.tokens + chunk[..sure]) + chunk[sure..][..k];
  }

  lemma ReadBehindCopy<T>(kind: Kind, cols: Columns<T>, src: int, dst: int, bias: nat, col: int, k: nat)
    requires dst < col
    ensures ReadAt(kind, CopyState(kind, cols, src, dst, bias), col, k) == ReadAt(kind, cols, col, k)
  {
  }

  /** What a forward pass hands to the save: every draft prefix, with the saved columns behind. */
  ghost predicate AfterForward<T>(kind: Kind, b: nat, r: Request<T>, column: int, chunk: seq<T>, draft: nat)
    requires b > 0 && draft < |chunk|
  {
    && column == RunningColumn(|r.tokens| + |chunk|, b) && r.column == Some(column)
    && (forall k: nat :: k <= draft ==>
          ReadAt(kind, r.cols, column, k) == Some(r.tokens + chunk[..|chunk| - draft + k]))
    && (forall d :: d in r.saved ==> d < column && SavedRight(b, r, d))
  }

  /**
   * What is saved is the accepted tokens up to a block boundary, all of them when the save ends on
   * the running column.
   */
  lemma SavedPrefix<T>(computed: seq<T>, chunk: seq<T>, draft: nat, accepted: nat, b: nat, save: Save)
    requires b > 0 && draft < |chunk| && 1 <= accepted <= draft + 1
    requires PostDecision(|computed|, |chunk|, draft, accepted, b) == Some(save)
    ensures save.bias < accepted && 0 <= save.dst <= RunningColumn(|computed| + |chunk|, b)
    ensures var tokens := computed + chunk[..|chunk| - draft + accepted - 1];
            var kept := computed + chunk[..|chunk| - draft + save.bias];
            && |kept| == (save.dst + 1) * b && kept <= tokens
            && (save.dst == RunningColumn(|computed| + |chunk|, b) ==> kept == tokens)
  {
    PostArithmetic(|computed|, |chunk|, draft, accepted, b);
    if save.dst == RunningColumn(|computed| + |chunk|, b) {
      Aligned(|computed| + |chunk| - draft + save.bias, |computed| + |chunk| - draft + accepted - 1, save.dst + 1, b);
    }
  }

  lemma Aligned(low: nat, high: nat, q: nat, b: nat)
    requires b > 0 && low == q * b && low <= high < q * b + b && high % b == 0
    ensures low == high
  {
    Slot(high, b, q);
    Remainder(high, q, b);
  }

  lemma SavesRightBlock<T>(kind: Kind, b: nat, r: Request<T>, column: int, chunk: seq<T>, draft: nat, accepted: nat,
                           save: Save)
    requires b > 0 && draft < |chunk| && 1 <= accepted <= draft + 1 && AfterForward(kind, b, r, column, chunk, draft)
    requires PostDecision(|r.tokens|, |chunk|, draft, accepted, b) == Some(save)
    ensures var r' := PostCopy(kind, b, r, column, chunk, draft, accepted);
            && SavedRight(b, r', save.dst)
            && ReadAt(kind, r'.cols, column, r'.accepted - 1) == Some(r'.tokens)
  {
    var tokens := r.tokens + chunk[..|chunk| - draft + accepted - 1];
    var r' := PostCopy(kind, b, r, column, chunk, draft, accepted);
    SavedPrefix(r.tokens, chunk, draft, accepted, b, save);
    var kept := r.tokens + chunk[..|chunk| - draft + save.bias];
    assert ReadAt(kind, r.cols, column, save.bias) == Some(kept);
    SaveDelivers(kind, r, r', column, save, kept);
    assert ReadAt(kind, r.cols, column, accepted - 1) == Some(tokens);
    if column != save.dst {
      ReadBehindCopy(kind, r.cols, column, save.dst, save.bias, column, accepted - 1);
    }
  }

  /** Blocks saved before lie below the new destination. */
  lemma SaveKeepsOlder<T>(kind: Kind, b: nat, r: Request<T>, column: int, chunk: seq<T>, draft: nat, accepted: nat,
                          save: Save)
    requires b > 0 && draft < |chunk| && 1 <= accepted <= draft + 1 && AfterForward(kind, b, r, column, chunk, draft)
    requires PostDecision(|r.tokens|, |chunk|, draft, accepted, b) == Some(save)
    ensures forall d :: d in r.saved ==> SameCell(r, PostCopy(kind, b, r, column, chunk, draft, accepted), d)
  {
    var r' := PostCopy(kind, b, r, column, chunk, draft, accepted);
    PostArithmetic(|r.tokens|, |chunk|, draft, accepted, b);
    forall d | d in r.saved ensures SameCell(r, r', d) {
      assert SavedRight(b, r, d);
      Multiples(d, save.dst, b);
      CopyKeeps(kind, r.cols, column, save.dst, save.bias, d);
    }
  }

  /** What the save leaves, given the columns the forward pass wrote. */
  lemma PostCopyExact<T>(kind: Kind, b: nat, r: Request<T>, column: int, chunk: seq<T>, draft: nat, accepted: nat)
    requires b > 0 && draft < |chunk| && 1 <= accepted <= draft + 1 && AfterForward(kind, b, r, column, chunk, draft)
    ensures var r' := PostCopy(kind, b, r, column, chunk, draft, accepted);
            && Exact(kind, b, r')
            && (forall d :: d in r.saved ==> d in r'.saved && SameCell(r, r', d))
  {
    var r' := PostCopy(kind, b, r, column, chunk, draft, accepted);
    assert |r'.tokens| + r'.rejected == |r.tokens| + |chunk|;
    match PostDecision(|r.tokens|, |chunk|, draft, accepted, b) {
      case None =>
        assert ReadAt(kind, r.cols, column, accepted - 1) == Some(r'.tokens);
        SavedStayRight(b, r, r', -1);
      case Some(save) =>
        SavesRightBlock(kind, b, r, column, chunk, draft, accepted, save);
        SaveKeepsOlder(kind, b, r, column, chunk, draft, accepted, save);
        SavedStayRight(b, r, r', save.dst);
    }
  }

  lemma SaveDelivers<T>(kind: Kind, r: Request<T>, r': Request<T>, column: int, save: Save, kept: seq<T>)
    requires r'.cols == if column == save.dst && save.bias == 0 then r.cols
               else CopyState(kind, r.cols, column, save.dst, save.bias)
    requires ReadAt(kind, r.cols, column, save.bias) == Some(kept)
    ensures save.dst in r'.cols && r'.cols[save.dst].base == kept && ReadAt(kind, r'.cols, save.dst, 0) == Some(kept)
  {
    CopyDelivers(kind, r.cols, column, save.dst, save.bias, kept);
  }

  lemma SavedStayRight<T>(b: nat, r: Request<T>, r': Request<T>, added: int)
    requires r.tokens <= r'.tokens
    requires forall d :: d in r.saved ==> SavedRight(b, r, d) && SameCell(r, r', d)
    requires forall d :: d in r'.saved ==> d in r.saved || (d == added && SavedRight(b, r', added))
    ensures forall d :: d in r'.saved ==> SavedRight(b, r', d)
  {
    forall d | d in r'.saved ensures SavedRight(b, r', d) {
      if d in r.saved {
        assert SavedRight(b, r, d);
        assert r'.tokens[..(d + 1) * b] == r.tokens[..(d + 1) * b];
      }
    }
  }

  /** The forward pass hands the save every draft prefix, and leaves the saved columns behind it alone. */
  lemma ForwardReady<T>(kind: Kind, b: nat, r: Request<T>, chunk: seq<T>, draft: nat)
    requires b > 0 && Exact(kind, b, r) && draft < |chunk|
    ensures var column := RunningColumn(|r.tokens| + |chunk|, b);
            var ready := PreCopy(kind, b, r, |chunk|);
            var run := ready.(cols := Forward(kind, ready, column, chunk, draft));
            && run.tokens == r.tokens && run.saved == r.saved && run.column == Some(column)
            && (forall k: nat :: k <= draft ==>
                  ReadAt(kind, run.cols, column, k) == Some(r.tokens + chunk[..|chunk| - draft + k]))
            && (forall d :: d in r.saved ==> d < column && SameCell(r, run, d))
  {
    var column := RunningColumn(|r.tokens| + |chunk|, b);
    var ready := PreCopy(kind, b, r, |chunk|);
    PreCopyReady(kind, b, r, |chunk|);
    forall k: nat | k <= draft
      ensures ReadAt(kind, Forward(kind, ready, column, chunk, draft), column, k)
                == Some(r.tokens + chunk[..|chunk| - draft + k])
    {
      ForwardWrites(kind, ready, column, chunk, draft, k);
    }
    ForwardWrites(kind, ready, column, chunk, draft, 0);
  }

  /** One engine step keeps the running state exact, and saved columns both right and untouched. */
  lemma StepKeepsExact<T>(kind: Kind, b: nat, r: Request<T>, chunk: seq<T>, draft: nat, accepted: nat)
    requires b > 0 && Exact(kind, b, r) && draft < |chunk| && 1 <= accepted <= draft + 1
    ensures var r' := EngineStep(kind, b, r, chunk, draft, accepted);
            && Exact(kind, b, r')
            && r'.tokens == r.tokens + chunk[..|chunk| - draft + accepted - 1]
            && (forall d :: d in r.saved ==> d in r'.saved && SameCell(r, r', d))
  {
    var column := RunningColumn(|r.tokens| + |chunk|, b);
    var ready := PreCopy(kind, b, r, |chunk|);
    ForwardReady(kind, b, r, chunk, draft);
    var run := ready.(cols := Forward(kind, ready, column, chunk, draft));
    forall d | d in run.saved ensures d < column && SavedRight(b, run, d) {
      assert SavedRight(b, r, d);
    }
    PostCopyExact(kind, b, run, column, chunk, draft, accepted);
  }

  lemma RestartSaved<T>(b: nat, r: Request<T>, blocks: nat, kept: set<int>, d: int)
    requires b > 0 && blocks * b <= |r.tokens| && SavedRight(b, r, d) && d in r.saved && d < blocks
    requires d in kept + {blocks - 1}
    ensures SavedRight(b, Restart(b, r, blocks, kept), d) && SameCell(r, Restart(b, r, blocks, kept), d)
  {
    Multiples(d, blocks, b);
    var n := (d + 1) * b;
    assert n <= blocks * b;
    assert r.tokens[..blocks * b][..n] == r.tokens[..n];
  }

  lemma WholeBlocks(m: nat, b: nat)
    requires b > 0
    ensures m * b % b == 0 && (m * b == 0 <==> m == 0)
  {
    Slot(m * b, b, m);
    Remainder(m * b, m, b);
    Multiples(0, m, b);
  }

  /**
   * A restart reads the state of exactly the prefix it restarts from, and keeps the saved columns
   * it can still reach.
   */
  lemma RestartKeepsExact<T>(kind: Kind, b: nat, r: Request<T>, blocks: nat, kept: set<int>)
    requires b > 0 && Exact(kind, b, r) && Enabled(b, r, Event<T>.Resume(blocks, kept))
    ensures var r' := Restart(b, r, blocks, kept);
            && Exact(kind, b, r')
            && r'.tokens == r.tokens[..blocks * b]
            && (blocks > 0 ==>
                  PrevColumn(r', b) == blocks - 1
                  && ReadAt(kind, r'.cols, blocks - 1, 0) == Some(r.tokens[..blocks * b]))
            && (forall d :: d in r'.saved ==> SameCell(r, r', d))
  {
    var r' := Restart(b, r, blocks, kept);
    SeedIsLastBlock(blocks, b);
    WholeBlocks(blocks, b);
    forall d | d in r'.saved ensures SavedRight(b, r', d) && SameCell(r, r', d) {
      RestartSaved(b, r, blocks, kept, d);
    }
    if blocks > 0 {
      RestartReads(kind, b, r, blocks, kept);
    }
  }

  lemma RestartReads<T>(kind: Kind, b: nat, r: Request<T>, blocks: nat, kept: set<int>)
    requires b > 0 && blocks > 0 && blocks * b <= |r.tokens| && SavedRight(b, r, blocks - 1)
    ensures ReadAt(kind, Restart(b, r, blocks, kept).cols, blocks - 1, 0) == Some(r.tokens[..blocks * b])
  {
    var s := r.tokens[..blocks * b];
    assert s + [] == s;
    assert r.cols[blocks - 1].base == s;
  }

  /**
   * Over every run: the running state is exact, every saved column is right, and
   * whatever comes next finds it so.
   */
  lemma {:induction false} EveryRunExact<T>(kind: Kind, b: nat, events: seq<Event<T>>)
    requires b > 0 && Run(kind, b, events).Some?
    ensures Exact(kind, b, Run(kind, b, events).value)
  {
    if events != [] {
      var before, e := events[..|events| - 1], events[|events| - 1];
      EveryRunExact(kind, b, before);
      var r := Run(kind, b, before).value;
      match e {
        case Step(chunk, draft, accepted) => StepKeepsExact(kind, b, r, chunk, draft, accepted);
        case Resume(blocks, kept) => RestartKeepsExact(kind, b, r, blocks, kept);
      }
    }
  }

  /** Along a run of steps, no step overwrites a saved column. */
  lemma {:induction false} SavedNeverOverwritten<T>(kind: Kind, b: nat, events: seq<Event<T>>, more: seq<Event<T>>,
                                                    d: int)
    requires b > 0 && Run(kind, b, events + more).Some? && forall i :: 0 <= i < |more| ==> more[i].Step?
    ensures Run(kind, b, events).Some?
    ensures var r, r' := Run(kind, b, events).value, Run(kind, b, events + more).value;
            r.tokens <= r'.tokens && (d in r.saved ==> d in r'.saved && SameCell(r, r', d))
    decreases |more|
  {
    if more == [] {
      assert events + more == events;
      EveryRunExact(kind, b, events);
      if d in Run(kind, b, events).value.saved {
        assert SavedRight(b, Run(kind, b, events).value, d);
      }
    } else {
      var front, e := more[..|more| - 1], more[|more| - 1];
      assert (events + more)[..|events + more| - 1] == events + front;
      SavedNeverOverwritten(kind, b, events, front, d);
      EveryRunExact(kind, b, events + front);
      StepKeepsExact(kind, b, Run(kind, b, events + front).value, e.chunk, e.draft, e.accepted);
    }
  }

  lemma NotSavedBeyond<T>(b: nat, r: Request<T>, m: nat)
    requires (forall d :: d in r.saved ==> SavedRight(b, r, d)) && |r.tokens| < m * b
    ensures m - 1 !in r.saved
  {
  }

  /** A boundary crossed by a step is saved exactly when the running state reaches it and no later boundary follows. */
  lemma BoundarySavedIff<T>(kind: Kind, b: nat, r: Request<T>, chunk: seq<T>, draft: nat, accepted: nat, m: nat)
    requires b > 0 && Exact(kind, b, r) && draft < |chunk| && 1 <= accepted <= draft + 1
    requires var r' := EngineStep(kind, b, r, chunk, draft, accepted);
             |r.tokens| < m * b <= |r'.tokens|
    ensures var r' := EngineStep(kind, b, r, chunk, draft, accepted);
            m - 1 in r'.saved <==> |r.tokens| + |chunk| - draft <= m * b && |r'.tokens| < m * b + b
  {
    var r' := EngineStep(kind, b, r, chunk, draft, accepted);
    StepKeepsExact(kind, b, r, chunk, draft, accepted);
    PreCopyReady(kind, b, r, |chunk|);
    NotSavedBeyond(b, r, m);
    var after := |r'.tokens|;
    var q := after / b;
    BlockBounds(after, b);
    PostDecisionByBlock(|r.tokens|, |chunk|, draft, accepted, b);
    Multiples(q, m, b);
    Multiples(m, q, b);
  }

  /** A decode step: one sampled token and fewer drafts than a block. */
  predicate Decode<T>(b: nat, e: Event<T>) { e.Step? && |e.chunk| == e.draft + 1 && e.draft < b }

  /** While decoding, every block boundary crossed ends up saved. */
  lemma {:induction false} DecodeSavesEveryBoundary<T>(kind: Kind, b: nat, events: seq<Event<T>>, more: seq<Event<T>>,
                                                       m: nat)
    requires b > 0 && Run(kind, b, events + more).Some? && forall i :: 0 <= i < |more| ==> Decode(b, more[i])
    requires Run(kind, b, events).Some?
    requires |Run(kind, b, events).value.tokens| < m * b <= |Run(kind, b, events + more).value.tokens|
    ensures m - 1 in Run(kind, b, events + more).value.saved
    decreases |more|
  {
    assert events + [] == events;
    if more != [] {
      var front, e := more[..|more| - 1], more[|more| - 1];
      assert (events + more)[..|events + more| - 1] == events + front;
      var r := Run(kind, b, events + front).value;
      EveryRunExact(kind, b, events + front);
      StepKeepsExact(kind, b, r, e.chunk, e.draft, e.accepted);
      if m * b <= |r.tokens| {
        DecodeSavesEveryBoundary(kind, b, events, front, m);
      } else {
        BoundarySavedIff(kind, b, r, e.chunk, e.draft, e.accepted, m);
      }
    }
  }

  // ----- allotted columns -----

  /** The columns a request's row holds during a step. */
  function AllottedColumns(computed: nat, scheduled: nat, blockSize: nat, speculative: nat): nat
    requires blockSize > 0
  {
    Cdiv(computed + scheduled, blockSize) + speculative
  }

  /** The column whose block holds the state at `(column, bias)`. */
  function ReadColumn(kind: Kind, column: int, bias: nat): int {
    if kind == Temporal then column + bias else column
  }

  /** Every column one step reads or writes: pre-copy, forward pass and save. */
  predicate Touches<T>(kind: Kind, blockSize: nat, r: Request<T>, chunk: seq<T>, draft: nat, accepted: nat, c: int)
    requires blockSize > 0 && r.accepted >= 1 && draft < |chunk| && 1 <= accepted <= draft + 1
  {
    var prev := PrevColumn(r, blockSize);
    var curr := RunningColumn(|r.tokens| + |chunk|, blockSize);
    var ready := PreCopy(kind, blockSize, r, |chunk|);
    || (prev != -1 && prev != curr && (c == curr || c == ReadColumn(kind, prev, r.accepted - 1)))
    || (r.tokens != [] && c == ReadColumn(kind, curr, ready.accepted - 1))
    || (curr <= c <= ReadColumn(kind, curr, draft))
    || (match PostDecision(|r.tokens|, |chunk|, draft, accepted, blockSize)
        case None => false
        case Some(save) => c == save.dst || c == ReadColumn(kind, curr, save.bias))
  }

  /** No step schedules more drafts than there are speculative columns. */
  predicate DraftsFit<T>(events: seq<Event<T>>, speculative: nat) {
    forall i :: 0 <= i < |events| && events[i].Step? ==> events[i].draft <= speculative
  }

  ghost predicate WithinSlack<T>(r: Request<T>, speculative: nat) {
    r.accepted + r.rejected <= speculative + 1
  }

  lemma {:induction false} EveryRunWithinSlack<T>(kind: Kind, b: nat, events: seq<Event<T>>, speculative: nat)
    requires b > 0 && Run(kind, b, events).Some? && DraftsFit(events, speculative)
    ensures WithinSlack(Run(kind, b, events).value, speculative)
  {
    if events != [] {
      EveryRunWithinSlack(kind, b, events[..|events| - 1], speculative);
    }
  }

  lemma ColumnShrink(computed: nat, rejected: nat, scheduled: nat, b: nat)
    requires b > 0 && computed > 0 && scheduled > 0
    ensures RunningColumn(computed + rejected, b)
              <= RunningColumn(computed + scheduled, b) + if rejected > scheduled then rejected - scheduled else 0
    decreases if rejected > scheduled then rejected - scheduled else 0
  {
    if rejected > scheduled {
      ColumnShrink(computed, rejected - 1, scheduled, b);
      ColumnStep(computed + rejected - 1, b);
    } else {
      ColumnGrows(computed + rejected, computed + scheduled, b);
    }
  }

  lemma ColumnGrows(n: nat, m: nat, b: nat)
    requires b > 0 && 0 < n <= m
    ensures RunningColumn(n, b) <= RunningColumn(m, b)
  {
    ColumnSpan(n, b);
    ColumnSpan(m, b);
    Multiples(RunningColumn(m, b), RunningColumn(n, b), b);
  }

  lemma ColumnStep(n: nat, b: nat)
    requires b > 0 && n > 0
    ensures RunningColumn(n + 1, b) <= RunningColumn(n, b) + 1
  {
    ColumnSpan(n, b);
    ColumnSpan(n + 1, b);
    Multiples(RunningColumn(n, b) + 1, RunningColumn(n + 1, b), b);
  }

  lemma SeedBehind(m: nat, scheduled: nat, b: nat)
    requires b > 0 && m > 0 && scheduled > 0
    ensures 0 <= SeedColumn(m * b, b) <= RunningColumn(m * b + scheduled, b)
  {
    SeedIsLastBlock(m, b);
    ColumnSpan(m * b + scheduled, b);
    Multiples(RunningColumn(m * b + scheduled, b) + 1, m, b);
  }

  lemma PrevColumnAllotted<T>(kind: Kind, b: nat, r: Request<T>, scheduled: nat, speculative: nat)
    requires b > 0 && scheduled > 0 && r.tokens != [] && Exact(kind, b, r) && WithinSlack(r, speculative)
    ensures 0 <= PrevColumn(r, b)
    ensures PrevColumn(r, b) + r.accepted - 1 <= RunningColumn(|r.tokens| + scheduled, b) + speculative
  {
    if r.column == None {
      var m := |r.tokens| / b;
      Remainder(|r.tokens|, m, b);
      Multiples(0, m, b);
      SeedBehind(m, scheduled, b);
    } else {
      ColumnSpan(|r.tokens| + r.rejected, b);
      ColumnShrink(|r.tokens|, r.rejected, scheduled, b);
    }
  }

  lemma SaveInRow(computed: nat, scheduled: nat, draft: nat, accepted: nat, b: nat)
    requires b > 0 && draft < scheduled && 1 <= accepted <= draft + 1
    ensures var d := PostDecision(computed, scheduled, draft, accepted, b);
            d.Some? ==> d.value.bias < accepted && 0 <= d.value.dst <= RunningColumn(computed + scheduled, b)
  {
    PostArithmetic(computed, scheduled, draft, accepted, b);
  }

  /**
   * In every run, every column a step touches lies in the row the step was allotted,
   * even when the running column moves back behind drafts that were rejected.
   */
  lemma TouchedColumnsAllotted<T>(kind: Kind, b: nat, events: seq<Event<T>>, chunk: seq<T>, draft: nat, accepted: nat,
                                  speculative: nat, c: int)
    requires b > 0 && Run(kind, b, events).Some? && DraftsFit(events, speculative)
    requires draft < |chunk| && draft <= speculative && 1 <= accepted <= draft + 1
    requires Touches(kind, b, Run(kind, b, events).value, chunk, draft, accepted, c)
    ensures 0 <= c < AllottedColumns(|Run(kind, b, events).value.tokens|, |chunk|, b, speculative)
  {
    EveryRunExact(kind, b, events);
    EveryRunWithinSlack(kind, b, events, speculative);
    StepTouchesAllotted(kind, b, Run(kind, b, events).value, chunk, draft, accepted, speculative, c);
  }

  lemma StepTouchesAllotted<T>(kind: Kind, b: nat, r: Request<T>, chunk: seq<T>, draft: nat, accepted: nat,
                               speculative: nat, c: int)
    requires b > 0 && Exact(kind, b, r) && WithinSlack(r, speculative)
    requires draft < |chunk| && draft <= speculative && 1 <= accepted <= draft + 1
    requires Touches(kind, b, r, chunk, draft, accepted, c)
    ensures 0 <= c < AllottedColumns(|r.tokens|, |chunk|, b, speculative)
  {
    var curr := RunningColumn(|r.tokens| + |chunk|, b);
    assert AllottedColumns(|r.tokens|, |chunk|, b, speculative) == curr + 1 + speculative;
    assert 0 <= curr by { ColumnSpan(|r.tokens| + |chunk|, b); }
    SaveInRow(|r.tokens|, |chunk|, draft, accepted, b);
    if r.tokens != [] {
      PrevColumnAllotted(kind, b, r, |chunk|, speculative);
    } else {
      assert PrevColumn(r, b) == -1;
    }
  }
}
