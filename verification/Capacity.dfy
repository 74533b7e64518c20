/** The greedy batch allocator `check_batch_capacity` (zkevm/src/circuit/builder.rs). */
module Capacity {
  import opened Common
  import opened Traces

  /** `calculate_row_usage_of_trace`: the rows one block needs in every sub-circuit. */
  type RowUsage = BlockTrace -> Outcome<seq<nat>>

  /** MAX_INNER_BLOCKS, DEGREE, AUTO_TRUNCATE and the number of sub-circuit names. */
  datatype Limits = Limits(maxInnerBlocks: nat, degree: nat, autoTruncate: bool, subCircuits: nat) {
    predicate Valid() {
      8 <= degree < 64 && (subCircuits == 10 || subCircuits == 11)
    }

    function RowLimit(): int {
      Pow2(degree) - 256
    }
  }

  // ---------------------------------------------------------------- what fitting means

  function UsageAt(usage: RowUsage, block: BlockTrace, j: nat): nat {
    match usage(block)
    case Ok(rows) => if j < |rows| then rows[j] else 0
    case _ => 0
  }

  /** Rows of sub-circuit `j` over a whole batch. */
  function Column(usage: RowUsage, blocks: seq<BlockTrace>, j: nat): nat {
    if blocks == [] then 0
    else Column(usage, blocks[..|blocks| - 1], j) + UsageAt(usage, blocks[|blocks| - 1], j)
  }

  /** Every sub-circuit stays below the row limit; the empty batch needs no rows. */
  predicate Fits(lim: Limits, usage: RowUsage, blocks: seq<BlockTrace>) {
    blocks == [] || forall j :: 0 <= j < lim.subCircuits ==> Column(usage, blocks, j) < lim.RowLimit()
  }

  /** Looking at block `i`: its row usage must be defined, and the first one must name every sub-circuit. */
  function Measure(lim: Limits, usage: RowUsage, blocks: seq<BlockTrace>, i: nat): Outcome<()>
    requires i < |blocks|
  {
    var rows :- usage(blocks[i]);
    Require(i == 0 ==> |rows| == lim.subCircuits)
  }

  predicate AllMeasured(lim: Limits, usage: RowUsage, blocks: seq<BlockTrace>) {
    forall i :: 0 <= i < |blocks| ==> Measure(lim, usage, blocks, i).Ok?
  }

  /** The index at which the batch is cut, looking at block `i` next. */
  function CutFrom(lim: Limits, usage: RowUsage, blocks: seq<BlockTrace>, i: nat): (cut: Outcome<nat>)
    requires i <= |blocks|
    ensures cut.Ok? ==> i <= cut.value <= |blocks|
    decreases |blocks| - i
  {
    if i == |blocks| then Ok(i)
    else
      var _ :- Measure(lim, usage, blocks, i);
      if Fits(lim, usage, blocks[..i + 1]) then CutFrom(lim, usage, blocks, i + 1) else Ok(i)
  }

  function TxCount(blocks: seq<BlockTrace>): nat {
    if blocks == [] then 0 else TxCount(blocks[..|blocks| - 1]) + |blocks[|blocks| - 1].transactions|
  }

  /** The result of a check together with the batch it leaves behind. */
  datatype Checked = Checked(result: Outcome<()>, blocks: seq<BlockTrace>)

  function CheckBatch(lim: Limits, usage: RowUsage, blocks: seq<BlockTrace>): Checked {
    if |blocks| > lim.maxInnerBlocks then Checked(Err(TooManyBlocks), blocks)
    else if !lim.autoTruncate then Checked(Ok(()), blocks)
    else
      match CutFrom(lim, usage, blocks, 0)
      case Ok(cut) =>
        var kept := blocks[..cut];
        Checked(if TxCount(blocks) != 0 && TxCount(kept) == 0 then Err(CapacityNotEnough) else Ok(()), kept)
      case Err(e) => Checked(Err(e), blocks)
      case Panic => Checked(Panic, blocks)
  }

  // ---------------------------------------------------------------- the in-place loop

  /** `&mut Vec<BlockTrace>` */
  class Batch {
    var blocks: seq<BlockTrace>

    constructor (blocks: seq<BlockTrace>)
      ensures this.blocks == blocks
    {
      this.blocks := blocks;
    }

    method Truncate(len: nat)
      modifies this
      ensures blocks == if len < |old(blocks)| then old(blocks)[..len] else old(blocks)
    {
      if len < |blocks| {
        blocks := blocks[..len];
      }
    }
  }

  method CountTransactions(blocks: seq<BlockTrace>) returns (n: nat)
    ensures n == TxCount(blocks)
  {
    n := 0;
    for i := 0 to |blocks|
      invariant n == TxCount(blocks[..i])
    {
      n := n + |blocks[i].transactions|;
      assert blocks[..i + 1][..i] == blocks[..i];
    }
    assert blocks[..|blocks|] == blocks;
  }

  /** `acc.iter_mut().zip(usage.iter())`: adds in place as far as both reach. */
  method AddInPlace(acc: array<nat>, rows: seq<nat>)
    modifies acc
    ensures forall j :: 0 <= j < acc.Length ==> acc[j] == old(acc[j]) + (if j < |rows| then rows[j] else 0)
  {
    var i := 0;
    while i < acc.Length && i < |rows|
      invariant 0 <= i <= acc.Length && i <= |rows|
      invariant forall j :: 0 <= j < i ==> acc[j] == old(acc[j]) + rows[j]
      invariant forall j :: i <= j < acc.Length ==> acc[j] == old(acc[j])
    {
      acc[i] := acc[i] + rows[i];
      i := i + 1;
    }
  }

  /** Starts the accumulator with the first row counts, then adds to it in place. */
  method Accumulate(acc: array<nat>, rows: seq<nat>) returns (r: array<nat>)
    modifies acc
    ensures if acc.Length == 0 then fresh(r) && r[..] == rows
            else r == acc && forall j :: 0 <= j < acc.Length ==>
                                acc[j] == old(acc[j]) + (if j < |rows| then rows[j] else 0)
  {
    if acc.Length == 0 {
      r := new nat[|rows|](i requires 0 <= i < |rows| => rows[i]);
    } else {
      AddInPlace(acc, rows);
      r := acc;
    }
  }

  method MaxOf(acc: array<nat>) returns (m: Outcome<nat>)
    ensures acc.Length == 0 <==> m == Panic
    ensures acc.Length > 0 ==> m.Ok? && m.value in acc[..] && forall j :: 0 <= j < acc.Length ==> acc[j] <= m.value
  {
    if acc.Length == 0 {
      return Panic;
    }
    var best := acc[0];
    for i := 1 to acc.Length
      invariant best in acc[..]
      invariant forall j :: 0 <= j < i ==> acc[j] <= best
    {
      if best < acc[i] {
        best := acc[i];
      }
    }
    return Ok(best);
  }

  method CheckBatchCapacity(lim: Limits, usage: RowUsage, batch: Batch) returns (r: Outcome<()>)
    requires lim.Valid()
    modifies batch
    ensures Checked(r, batch.blocks) == CheckBatch(lim, usage, old(batch.blocks))
  {
    var blocks := batch.blocks;
    var totalTxCount := CountTransactions(blocks);
    if |blocks| > lim.maxInnerBlocks {
      return Err(TooManyBlocks);
    }
    if !lim.autoTruncate {
      return Ok(());
    }
    var acc := new nat[0];
    assert blocks[..|blocks|] == blocks;
    var truncateIdx := |blocks|;
    for idx := 0 to |blocks|
      invariant fresh(acc) && truncateIdx == |blocks| && batch.blocks == blocks
      invariant acc.Length == if idx == 0 then 0 else lim.subCircuits
      invariant forall j :: 0 <= j < acc.Length ==> acc[j] == Column(usage, blocks[..idx], j)
      invariant CutFrom(lim, usage, blocks, 0) == CutFrom(lim, usage, blocks, idx)
    {
      var measured := usage(blocks[idx]);
      if measured.IsFailure() {
        return measured.PropagateFailure();
      }
      var rows := measured.value;
      assert blocks[..idx + 1][..idx] == blocks[..idx];
      acc := Accumulate(acc, rows);
      assert forall j :: 0 <= j < acc.Length ==> acc[j] == Column(usage, blocks[..idx + 1], j);
      var most := MaxOf(acc);
      if most.IsFailure() || acc.Length != lim.subCircuits {
        return Panic;
      }
      FitsByMaximum(lim, usage, blocks[..idx + 1], acc[..], most.value);
      if most.value >= lim.RowLimit() {
        truncateIdx := idx;
        break;
      }
    }
    batch.Truncate(truncateIdx);
    var totalTxCount2 := CountTransactions(batch.blocks);
    if totalTxCount != 0 && totalTxCount2 == 0 {
      return Err(CapacityNotEnough);
    }
    return Ok(());
  }

  lemma FitsByMaximum(lim: Limits, usage: RowUsage, blocks: seq<BlockTrace>, acc: seq<nat>, most: nat)
    requires blocks != [] && |acc| == lim.subCircuits
    requires forall j :: 0 <= j < |acc| ==> acc[j] == Column(usage, blocks, j) && acc[j] <= most
    requires most in acc
    ensures Fits(lim, usage, blocks) <==> most < lim.RowLimit()
  {
    var j :| 0 <= j < |acc| && acc[j] == most;
    assert Column(usage, blocks, j) == most;
  }

  // ---------------------------------------------------------------- what the allocator guarantees

  lemma {:induction false} ColumnMonotone(usage: RowUsage, blocks: seq<BlockTrace>, m: nat, j: nat)
    requires m <= |blocks|
    ensures Column(usage, blocks[..m], j) <= Column(usage, blocks, j)
  {
    if m == |blocks| {
      assert blocks[..m] == blocks;
    } else {
      var init := blocks[..|blocks| - 1];
      ColumnMonotone(usage, init, m, j);
      assert init[..m] == blocks[..m];
    }
  }

  lemma FitsDownward(lim: Limits, usage: RowUsage, blocks: seq<BlockTrace>, m: nat, n: nat)
    requires m <= n <= |blocks| && Fits(lim, usage, blocks[..n])
    ensures Fits(lim, usage, blocks[..m])
  {
    assert blocks[..n][..m] == blocks[..m];
    forall j | 0 <= j < lim.subCircuits && m > 0 ensures Column(usage, blocks[..m], j) < lim.RowLimit() {
      ColumnMonotone(usage, blocks[..n], m, j);
    }
  }

  /** The cut from a position reached with everything fitting: where it falls, or which block stops it. */
  lemma {:induction false} CutExact(lim: Limits, usage: RowUsage, blocks: seq<BlockTrace>, i: nat)
    requires i <= |blocks| && Fits(lim, usage, blocks[..i])
    ensures var cut := CutFrom(lim, usage, blocks, i);
            if cut.Ok? then
              && Fits(lim, usage, blocks[..cut.value])
              && (cut.value == |blocks| || !Fits(lim, usage, blocks[..cut.value + 1]))
              && forall m :: i <= m <= cut.value && m < |blocks| ==> Measure(lim, usage, blocks, m).Ok?
            else
              exists m :: i <= m < |blocks| && Fits(lim, usage, blocks[..m])
                       && Measure(lim, usage, blocks, m).IsFailure()
                       && cut == Measure(lim, usage, blocks, m).PropagateFailure()
                       && forall l :: i <= l < m ==> Measure(lim, usage, blocks, l).Ok?
    decreases |blocks| - i
  {
    if i < |blocks| && Measure(lim, usage, blocks, i).Ok? && Fits(lim, usage, blocks[..i + 1]) {
      CutExact(lim, usage, blocks, i + 1);
    }
  }

  ghost predicate SomeColumnReaches(lim: Limits, usage: RowUsage, blocks: seq<BlockTrace>, rows: int) {
    exists j: nat :: j < lim.subCircuits && Column(usage, blocks, j) >= rows
  }

  /** On success the batch is cut to its longest fitting prefix. */
  lemma GreedyMaximalPrefix(lim: Limits, usage: RowUsage, blocks: seq<BlockTrace>)
    requires lim.autoTruncate && CheckBatch(lim, usage, blocks).result.Ok?
    ensures var kept := CheckBatch(lim, usage, blocks).blocks;
            && kept <= blocks
            && Fits(lim, usage, kept)
            && (forall j: nat :: kept != [] && j < lim.subCircuits ==> Column(usage, kept, j) <= Pow2(lim.degree) - 257)
            && (forall n :: |kept| < n <= |blocks| ==> !Fits(lim, usage, blocks[..n]))
    ensures forall n :: |CheckBatch(lim, usage, blocks).blocks| < n <= |blocks| ==>
              SomeColumnReaches(lim, usage, blocks[..n], Pow2(lim.degree) - 256)
  {
    CutExact(lim, usage, blocks, 0);
    var cut := CutFrom(lim, usage, blocks, 0).value;
    forall n | cut < n <= |blocks|
      ensures !Fits(lim, usage, blocks[..n])
    {
      OverflowAt(lim, usage, blocks, cut + 1, n);
    }
    forall n | cut < n <= |blocks|
      ensures SomeColumnReaches(lim, usage, blocks[..n], Pow2(lim.degree) - 256)
    {
      OverflowingColumn(lim, usage, blocks[..n]);
    }
  }

  lemma OverflowingColumn(lim: Limits, usage: RowUsage, blocks: seq<BlockTrace>)
    requires !Fits(lim, usage, blocks)
    ensures SomeColumnReaches(lim, usage, blocks, Pow2(lim.degree) - 256)
  {
  }

  /** A block without usable row counts stops the check iff everything before it fits:
      a fault beyond the cut is never seen. */
  lemma MeasureFaultIff(lim: Limits, usage: RowUsage, blocks: seq<BlockTrace>)
    ensures CutFrom(lim, usage, blocks, 0).IsFailure() <==>
            exists m :: 0 <= m < |blocks| && Measure(lim, usage, blocks, m).IsFailure() && Fits(lim, usage, blocks[..m])
  {
    CutExact(lim, usage, blocks, 0);
    var cut := CutFrom(lim, usage, blocks, 0);
    if cut.Ok? {
      forall m | 0 <= m < |blocks| && Measure(lim, usage, blocks, m).IsFailure()
        ensures !Fits(lim, usage, blocks[..m])
      {
        if Fits(lim, usage, blocks[..m]) {
          FitsDownward(lim, usage, blocks, cut.value + 1, m);
        }
      }
    }
  }

  lemma {:induction false} TxCountSplit(blocks: seq<BlockTrace>, n: nat)
    requires n <= |blocks|
    ensures TxCount(blocks) == TxCount(blocks[..n]) + TxCount(blocks[n..])
  {
    if n == |blocks| {
      assert blocks[..n] == blocks && blocks[n..] == [];
    } else {
      var init := blocks[..|blocks| - 1];
      TxCountSplit(init, n);
      assert init[..n] == blocks[..n];
      assert blocks[n..][..|blocks| - n - 1] == init[n..];
    }
  }

  /** Kept plus dropped transactions are the original ones, and some are kept when there were any. */
  lemma TransactionsConserved(lim: Limits, usage: RowUsage, blocks: seq<BlockTrace>)
    requires CheckBatch(lim, usage, blocks).result.Ok?
    ensures var kept := CheckBatch(lim, usage, blocks).blocks;
            && kept <= blocks
            && TxCount(kept) + TxCount(blocks[|kept|..]) == TxCount(blocks)
            && (TxCount(kept) == 0 <==> TxCount(blocks) == 0)
  {
    TxCountSplit(blocks, |CheckBatch(lim, usage, blocks).blocks|);
  }

  lemma {:induction false} FirstNonEmptyBlock(blocks: seq<BlockTrace>) returns (f: nat)
    requires TxCount(blocks) > 0
    ensures f < |blocks| && TxCount(blocks[..f]) == 0 && blocks[f].transactions != []
  {
    var init := blocks[..|blocks| - 1];
    if TxCount(init) == 0 {
      f := |init|;
    } else {
      f := FirstNonEmptyBlock(init);
      assert init[..f] == blocks[..f];
    }
  }

  /** "circuit capacity not enough" iff the prefix ending at the first block with transactions overflows. */
  lemma CapacityFailureIff(lim: Limits, usage: RowUsage, blocks: seq<BlockTrace>)
    requires lim.autoTruncate && |blocks| <= lim.maxInnerBlocks && AllMeasured(lim, usage, blocks)
    ensures CheckBatch(lim, usage, blocks).result in {Ok(()), Err(CapacityNotEnough)}
    ensures CheckBatch(lim, usage, blocks).result == Err(CapacityNotEnough) <==>
            exists f :: 0 <= f < |blocks| && blocks[f].transactions != [] && TxCount(blocks[..f]) == 0
                     && !Fits(lim, usage, blocks[..f + 1])
  {
    CutExact(lim, usage, blocks, 0);
    CutLosesAllTransactionsIff(lim, usage, blocks, CutFrom(lim, usage, blocks, 0).value);
  }

  lemma FirstNonEmptyDecides(lim: Limits, usage: RowUsage, blocks: seq<BlockTrace>, f: nat, cut: nat)
    requires f < |blocks| && cut <= |blocks|
    requires blocks[f].transactions != [] && TxCount(blocks[..f]) == 0
    requires Fits(lim, usage, blocks[..cut]) && (cut == |blocks| || !Fits(lim, usage, blocks[..cut + 1]))
    ensures TxCount(blocks) > 0
    ensures TxCount(blocks[..cut]) == 0 <==> !Fits(lim, usage, blocks[..f + 1])
  {
    assert blocks[..f + 1][..f] == blocks[..f] && blocks[..|blocks|] == blocks;
    TxCountPrefix(blocks, f + 1, |blocks|);
    if cut <= f {
      TxCountPrefix(blocks, cut, f);
      OverflowAt(lim, usage, blocks, cut + 1, f + 1);
    } else {
      TxCountPrefix(blocks, f + 1, cut);
      FitsDownward(lim, usage, blocks, f + 1, cut);
    }
  }

  lemma OverflowAt(lim: Limits, usage: RowUsage, blocks: seq<BlockTrace>, m: nat, n: nat)
    requires m <= n <= |blocks| && !Fits(lim, usage, blocks[..m])
    ensures !Fits(lim, usage, blocks[..n])
  {
    if Fits(lim, usage, blocks[..n]) {
      FitsDownward(lim, usage, blocks, m, n);
    }
  }

  lemma TxCountPrefix(blocks: seq<BlockTrace>, m: nat, n: nat)
    requires m <= n <= |blocks|
    ensures TxCount(blocks[..m]) <= TxCount(blocks[..n])
  {
    TxCountSplit(blocks[..n], m);
    assert blocks[..n][..m] == blocks[..m];
  }

  /** When the check succeeds, whatever the limits: there are not too many blocks and, with truncation on, no block
      without usable row counts is reached and the first block with transactions still fits. */
  lemma CheckSucceedsIff(lim: Limits, usage: RowUsage, blocks: seq<BlockTrace>)
    ensures CheckBatch(lim, usage, blocks).result.Ok? <==>
            && |blocks| <= lim.maxInnerBlocks
            && (lim.autoTruncate ==>
                && (forall m :: 0 <= m < |blocks| && Measure(lim, usage, blocks, m).IsFailure() ==>
                      !Fits(lim, usage, blocks[..m]))
                && (forall f :: 0 <= f < |blocks| && blocks[f].transactions != [] && TxCount(blocks[..f]) == 0 ==>
                      Fits(lim, usage, blocks[..f + 1])))
  {
    if |blocks| <= lim.maxInnerBlocks && lim.autoTruncate {
      MeasureFaultIff(lim, usage, blocks);
      CutExact(lim, usage, blocks, 0);
      if CutFrom(lim, usage, blocks, 0).Ok? {
        CutLosesAllTransactionsIff(lim, usage, blocks, CutFrom(lim, usage, blocks, 0).value);
      }
    }
  }

  lemma CutLosesAllTransactionsIff(lim: Limits, usage: RowUsage, blocks: seq<BlockTrace>, cut: nat)
    requires cut <= |blocks| && Fits(lim, usage, blocks[..cut])
    requires cut == |blocks| || !Fits(lim, usage, blocks[..cut + 1])
    ensures TxCount(blocks) != 0 && TxCount(blocks[..cut]) == 0 <==>
            exists f :: 0 <= f < |blocks| && blocks[f].transactions != [] && TxCount(blocks[..f]) == 0
                     && !Fits(lim, usage, blocks[..f + 1])
  {
    if TxCount(blocks) > 0 {
      var f := FirstNonEmptyBlock(blocks);
      FirstNonEmptyDecides(lim, usage, blocks, f, cut);
    }
    forall f | 0 <= f < |blocks| && blocks[f].transactions != [] && TxCount(blocks[..f]) == 0
      ensures TxCount(blocks) > 0 && (!Fits(lim, usage, blocks[..f + 1]) ==> TxCount(blocks[..cut]) == 0)
    {
      FirstNonEmptyDecides(lim, usage, blocks, f, cut);
    }
  }

  /** What the check leaves behind otherwise: the batch itself when there are too many blocks, when truncation is off
      and when a block cannot be measured, and the longest fitting prefix, without transactions, when capacity is
      short. */
  lemma CheckOutcome(lim: Limits, usage: RowUsage, blocks: seq<BlockTrace>)
    ensures |blocks| > lim.maxInnerBlocks ==> CheckBatch(lim, usage, blocks) == Checked(Err(TooManyBlocks), blocks)
    ensures |blocks| <= lim.maxInnerBlocks && !lim.autoTruncate ==>
              CheckBatch(lim, usage, blocks) == Checked(Ok(()), blocks)
    ensures var out := CheckBatch(lim, usage, blocks);
            |blocks| <= lim.maxInnerBlocks && !out.result.Ok? ==>
              || (exists m :: 0 <= m < |blocks| && Fits(lim, usage, blocks[..m])
                           && Measure(lim, usage, blocks, m).IsFailure()
                           && (forall l :: 0 <= l < m ==> Measure(lim, usage, blocks, l).Ok?)
                           && out == Checked(Measure(lim, usage, blocks, m).PropagateFailure(), blocks))
              || (&& out.result == Err(CapacityNotEnough) && out.blocks <= blocks && Fits(lim, usage, out.blocks)
                  && TxCount(out.blocks) == 0 < TxCount(blocks)
                  && forall n :: |out.blocks| < n <= |blocks| ==> !Fits(lim, usage, blocks[..n]))
  {
    CutExact(lim, usage, blocks, 0);
    var cut := CutFrom(lim, usage, blocks, 0);
    if cut.Ok? {
      forall n | cut.value < n <= |blocks| ensures !Fits(lim, usage, blocks[..n]) {
        OverflowAt(lim, usage, blocks, cut.value + 1, n);
      }
    }
  }

  /** Checking the output again succeeds and changes nothing. */
  lemma CheckIdempotent(lim: Limits, usage: RowUsage, blocks: seq<BlockTrace>)
    requires CheckBatch(lim, usage, blocks).result.Ok?
    ensures var kept := CheckBatch(lim, usage, blocks).blocks;
            CheckBatch(lim, usage, kept) == Checked(Ok(()), kept)
  {
    if lim.autoTruncate {
      CutExact(lim, usage, blocks, 0);
      var cut := CutFrom(lim, usage, blocks, 0).value;
      CutOfFittingPrefix(lim, usage, blocks, cut, 0);
      assert blocks[..cut][..cut] == blocks[..cut];
    }
  }

  lemma {:induction false} CutOfFittingPrefix(lim: Limits, usage: RowUsage, blocks: seq<BlockTrace>, n: nat, i: nat)
    requires i <= n <= |blocks| && Fits(lim, usage, blocks[..n])
    requires forall m :: i <= m < n ==> Measure(lim, usage, blocks, m).Ok?
    ensures CutFrom(lim, usage, blocks[..n], i) == Ok(n)
    decreases n - i
  {
    if i < n {
      FitsDownward(lim, usage, blocks, i + 1, n);
      assert blocks[..n][..i + 1] == blocks[..i + 1] && blocks[..n][i] == blocks[i];
      assert Measure(lim, usage, blocks[..n], i) == Measure(lim, usage, blocks, i);
      CutOfFittingPrefix(lim, usage, blocks, n, i + 1);
    }
  }

  /** Raising DEGREE keeps at least as many blocks. It turns success into failure only by reaching a block
      whose row usage is undefined, and does so exactly then. */
  lemma DegreeMonotone(lim: Limits, usage: RowUsage, blocks: seq<BlockTrace>, degree: nat)
    requires lim.autoTruncate && lim.degree <= degree
    requires CheckBatch(lim, usage, blocks).result.Ok?
    ensures var higher := lim.(degree := degree);
            && (CheckBatch(higher, usage, blocks).result.Ok? <==>
                forall m :: 0 <= m < |blocks| && Measure(higher, usage, blocks, m).IsFailure() ==>
                  !Fits(higher, usage, blocks[..m]))
            && (CheckBatch(higher, usage, blocks).result.Ok? ==>
                CheckBatch(lim, usage, blocks).blocks <= CheckBatch(higher, usage, blocks).blocks)
  {
    var higher := lim.(degree := degree);
    MeasureFaultIff(higher, usage, blocks);
    CutExact(lim, usage, blocks, 0);
    CutExact(higher, usage, blocks, 0);
    Pow2Monotone(lim.degree, degree);
    forall n | 0 <= n <= |blocks| && Fits(lim, usage, blocks[..n]) ensures Fits(higher, usage, blocks[..n]) {
    }
    var kept := CutFrom(lim, usage, blocks, 0).value;
    if CutFrom(higher, usage, blocks, 0).Ok? {
      var keptHigher := CutFrom(higher, usage, blocks, 0).value;
      if keptHigher < kept {
        FitsDownward(higher, usage, blocks, keptHigher + 1, kept);
      }
      TxCountSplit(blocks[..keptHigher], kept);
      assert blocks[..keptHigher][..kept] == blocks[..kept];
    }
  }

  /** With one block a batch, a successful check drops it only when it overflows and carries no transaction. */
  lemma SingleBlockBatch(lim: Limits, usage: RowUsage, blocks: seq<BlockTrace>)
    requires lim.autoTruncate && lim.maxInnerBlocks == 1
    requires CheckBatch(lim, usage, blocks).result.Ok?
    ensures var kept := CheckBatch(lim, usage, blocks).blocks;
            && (kept == blocks <==> Fits(lim, usage, blocks))
            && (kept != blocks ==> kept == [] && TxCount(blocks) == 0)
  {
    GreedyMaximalPrefix(lim, usage, blocks);
    TransactionsConserved(lim, usage, blocks);
    assert blocks[..|blocks|] == blocks;
    if |CheckBatch(lim, usage, blocks).blocks| == |blocks| {
      assert CheckBatch(lim, usage, blocks).blocks == blocks;
    }
  }

  /** With at most one block a batch nothing new can be reached: success at a degree is success at every higher one. */
  lemma SingleBlockDegreeMonotone(lim: Limits, usage: RowUsage, blocks: seq<BlockTrace>, degree: nat)
    requires lim.maxInnerBlocks <= 1 && lim.degree <= degree
    requires CheckBatch(lim, usage, blocks).result.Ok?
    ensures CheckBatch(lim.(degree := degree), usage, blocks).result.Ok?
    ensures CheckBatch(lim, usage, blocks).blocks <= CheckBatch(lim.(degree := degree), usage, blocks).blocks
  {
    if lim.autoTruncate {
      DegreeMonotone(lim, usage, blocks, degree);
      if |blocks| == 1 {
        assert Measure(lim.(degree := degree), usage, blocks, 0) == Measure(lim, usage, blocks, 0);
      }
    }
  }

  /** With two blocks a higher degree can fail where a lower one succeeds: at degree 20 the first block overflows and is
      dropped with everything after it; at degree 21 it fits, and the second block has no row usage. */
  lemma DegreeFailureWitness(storage: StorageTrace) returns (lim: Limits, usage: RowUsage, blocks: seq<BlockTrace>)
    ensures lim == Limits(100, 20, true, 10) && lim.Valid() && |blocks| == 2 && TxCount(blocks) == 0
    ensures CheckBatch(lim, usage, blocks) == Checked(Ok(()), [])
    ensures CheckBatch(lim.(degree := 21), usage, blocks).result == Err(External(0))
  {
    var first := BlockTrace(None, Header(None, None), [], [], storage);
    var second := first.(coinbase := Some(0));
    lim := Limits(100, 20, true, 10);
    usage := block => if block == first then Ok(seq(10, _ => 1_500_000)) else Err(External(0));
    blocks := [first, second];
    Pow2Of21();
    assert blocks[..1] == [first] && [first][..0] == [];
    forall j: nat | j < 10 ensures Column(usage, [first], j) == 1_500_000 {
      assert UsageAt(usage, first, j) == 1_500_000;
    }
    assert Column(usage, [first], 0) == 1_500_000;
    var higher := lim.(degree := 21);
    assert Measure(lim, usage, blocks, 0) == Measure(higher, usage, blocks, 0) == Ok(());
    assert !Fits(lim, usage, [first]) && Fits(higher, usage, [first]);
    assert CutFrom(higher, usage, blocks, 0) == CutFrom(higher, usage, blocks, 1);
    assert Measure(higher, usage, blocks, 1) == Err(External(0));
    assert TxCount(blocks[..1]) == 0 && TxCount(blocks) == 0;
  }

  lemma Pow2Of21()
    ensures Pow2(20) == 1_048_576 && Pow2(21) == 2_097_152
  {
    assert Pow2(10) == 1024;
    assert Pow2(20) == 1_048_576;
  }

  /** Row counts below 2^63 never make an accumulated sum wrap around in 64 bits. */
  lemma RowSumsFitUsize(lim: Limits, usage: RowUsage, blocks: seq<BlockTrace>, i: nat, j: nat)
    requires lim.Valid() && lim.degree < 64 && j < lim.subCircuits
    requires i < |blocks| && Fits(lim, usage, blocks[..i])
    requires UsageAt(usage, blocks[i], j) < 0x8000_0000_0000_0000
    ensures Column(usage, blocks[..i + 1], j) < 0x1_0000_0000_0000_0000
  {
    assert blocks[..i + 1][..i] == blocks[..i];
    Pow2Monotone(lim.degree, 63);
    Pow2Of63();
  }
}
