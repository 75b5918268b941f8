/** The range planner of the current event monitor: the interval between
    the stored cursor and the chain tip is cut into consecutive block ranges
    of at most `maxRange` blocks, one `getLogs` query each. */
module BlockRanges {

  /** `{ fromBlock, toBlock }`, both ends inclusive. */
  datatype Range = Range(fromBlock: nat, toBlock: nat)

  /** `bigintMin(a, b)` */
  function BigintMin(a: nat, b: nat): (m: nat)
    ensures m <= a && m <= b
    ensures m == a || m == b
  {
    if a < b then a else b
  }

  /** Reference definition of the planner: the range starting at `start`,
      then the ranges starting one past its end, while `start < toBlock`. */
  function Ranges(start: nat, toBlock: nat, maxRange: nat): seq<Range>
    requires maxRange >= 1
    decreases toBlock - start
  {
    if start < toBlock then
      var end := BigintMin(start + maxRange - 1, toBlock);
      [Range(start, end)] + Ranges(end + 1, toBlock, maxRange)
    else []
  }

  /** `getBlockRanges(fromBlock, toBlock, maxRange)`; a `maxRange` of 0 would
      make the loop spin forever whenever `fromBlock < toBlock`, so at least 1
      is demanded on every input. */
  method GetBlockRanges(fromBlock: nat, toBlock: nat, maxRange: nat) returns (ranges: seq<Range>)
    requires maxRange >= 1
    ensures ranges == Ranges(fromBlock, toBlock, maxRange)
  {
    ranges := [];
    var start := fromBlock;
    while start < toBlock
      invariant ranges + Ranges(start, toBlock, maxRange) == Ranges(fromBlock, toBlock, maxRange)
      decreases toBlock - start
    {
      var end := BigintMin(start + maxRange - 1, toBlock);
      assert Ranges(start, toBlock, maxRange) == [Range(start, end)] + Ranges(end + 1, toBlock, maxRange);
      ranges := ranges + [Range(start, end)];
      start := end + 1;
    }
  }

  /** Range `r` contains block `b`. */
  predicate In(r: Range, b: nat) {
    r.fromBlock <= b <= r.toBlock
  }

  /** Shape of the plan: empty exactly when `fromBlock >= toBlock`; otherwise
      it starts at `fromBlock`, every range is non-empty, holds at most
      `maxRange` blocks and ends by `toBlock`, each range starts one past the
      previous end, and the last one ends at `toBlock` or `toBlock - 1`. */
  lemma {:induction false} RangesShape(fromBlock: nat, toBlock: nat, maxRange: nat)
    requires maxRange >= 1
    ensures var r := Ranges(fromBlock, toBlock, maxRange);
      && (r == [] <==> fromBlock >= toBlock)
      && (r != [] ==> r[0].fromBlock == fromBlock)
      && (r != [] ==> toBlock - 1 <= r[|r| - 1].toBlock <= toBlock)
      && (forall i :: 0 <= i < |r| ==>
            fromBlock <= r[i].fromBlock <= r[i].toBlock <= toBlock &&
            r[i].toBlock - r[i].fromBlock + 1 <= maxRange)
      && (forall i :: 0 <= i < |r| - 1 ==> r[i + 1].fromBlock == r[i].toBlock + 1)
    decreases toBlock - fromBlock
  {
    RangesEnds(fromBlock, toBlock, maxRange);
    RangesBounded(fromBlock, toBlock, maxRange);
    var r := Ranges(fromBlock, toBlock, maxRange);
    assert forall i :: 0 <= i < |r| ==> Within(r[i], fromBlock, toBlock, maxRange);
    RangesContiguous(fromBlock, toBlock, maxRange);
  }

  /** Empty exactly when `fromBlock >= toBlock`; the first range starts at
      `fromBlock`, the last ends at `toBlock` or `toBlock - 1`. */
  lemma {:induction false} RangesEnds(fromBlock: nat, toBlock: nat, maxRange: nat)
    requires maxRange >= 1
    ensures var r := Ranges(fromBlock, toBlock, maxRange);
      && (r == [] <==> fromBlock >= toBlock)
      && (r != [] ==> r[0].fromBlock == fromBlock)
      && (r != [] ==> toBlock - 1 <= r[|r| - 1].toBlock <= toBlock)
    decreases toBlock - fromBlock
  {
    if fromBlock < toBlock {
      var end := BigintMin(fromBlock + maxRange - 1, toBlock);
      var rest := Ranges(end + 1, toBlock, maxRange);
      RangesEnds(end + 1, toBlock, maxRange);
      var r := Ranges(fromBlock, toBlock, maxRange);
      assert r == [Range(fromBlock, end)] + rest;
      if rest != [] {
        assert r[|r| - 1] == rest[|rest| - 1];
      }
    }
  }

  /** Range `r` is non-empty, lies within `[lo, hi]` and holds at most
      `maxRange` blocks. */
  predicate Within(r: Range, lo: nat, hi: nat, maxRange: nat) {
    lo <= r.fromBlock <= r.toBlock <= hi && r.toBlock - r.fromBlock + 1 <= maxRange
  }

  /** Every range is non-empty, lies within `[fromBlock, toBlock]` and holds
      at most `maxRange` blocks. */
  lemma {:induction false} RangesBounded(fromBlock: nat, toBlock: nat, maxRange: nat)
    requires maxRange >= 1
    ensures forall i :: 0 <= i < |Ranges(fromBlock, toBlock, maxRange)| ==>
              Within(Ranges(fromBlock, toBlock, maxRange)[i], fromBlock, toBlock, maxRange)
    decreases toBlock - fromBlock
  {
    if fromBlock < toBlock {
      var end := BigintMin(fromBlock + maxRange - 1, toBlock);
      var rest := Ranges(end + 1, toBlock, maxRange);
      RangesBounded(end + 1, toBlock, maxRange);
      var r := Ranges(fromBlock, toBlock, maxRange);
      assert r == [Range(fromBlock, end)] + rest;
      assert Within(r[0], fromBlock, toBlock, maxRange);
      forall i | 1 <= i < |r|
        ensures Within(r[i], fromBlock, toBlock, maxRange)
      {
        assert r[i] == rest[i - 1];
        assert Within(rest[i - 1], end + 1, toBlock, maxRange);
      }
    }
  }

  /** Each range starts one past the previous one's end. */
  lemma {:induction false} RangesContiguous(fromBlock: nat, toBlock: nat, maxRange: nat)
    requires maxRange >= 1
    ensures var r := Ranges(fromBlock, toBlock, maxRange);
      forall i :: 0 <= i < |r| - 1 ==> r[i + 1].fromBlock == r[i].toBlock + 1
    decreases toBlock - fromBlock
  {
    if fromBlock < toBlock {
      var end := BigintMin(fromBlock + maxRange - 1, toBlock);
      var rest := Ranges(end + 1, toBlock, maxRange);
      RangesContiguous(end + 1, toBlock, maxRange);
      RangesEnds(end + 1, toBlock, maxRange);
      var r := Ranges(fromBlock, toBlock, maxRange);
      assert r == [Range(fromBlock, end)] + rest;
      assert forall i :: 1 <= i < |r| ==> r[i] == rest[i - 1];
    }
  }

  /** The ranges are strictly ascending: every block of an earlier range lies
      below every block of a later one, so no block is queried twice. */
  lemma {:induction false} RangesAscending(fromBlock: nat, toBlock: nat, maxRange: nat, i: nat, j: nat)
    requires maxRange >= 1
    requires i < j < |Ranges(fromBlock, toBlock, maxRange)|
    ensures Ranges(fromBlock, toBlock, maxRange)[i].toBlock < Ranges(fromBlock, toBlock, maxRange)[j].fromBlock
    decreases j - i
  {
    var r := Ranges(fromBlock, toBlock, maxRange);
    RangesShape(fromBlock, toBlock, maxRange);
    if j > i + 1 {
      RangesAscending(fromBlock, toBlock, maxRange, i, j - 1);
    }
  }

  /** Every block from `fromBlock` up to `toBlock - 1` is in some range, and
      every block in a range lies within `[fromBlock, toBlock]`. */
  lemma {:induction false} RangesCover(fromBlock: nat, toBlock: nat, maxRange: nat, b: nat)
    requires maxRange >= 1
    ensures fromBlock <= b < toBlock ==>
              exists i :: 0 <= i < |Ranges(fromBlock, toBlock, maxRange)| && In(Ranges(fromBlock, toBlock, maxRange)[i], b)
    ensures forall i :: 0 <= i < |Ranges(fromBlock, toBlock, maxRange)| && In(Ranges(fromBlock, toBlock, maxRange)[i], b) ==>
              fromBlock <= b <= toBlock
    decreases toBlock - fromBlock
  {
    RangesShape(fromBlock, toBlock, maxRange);
    if fromBlock <= b < toBlock {
      var end := BigintMin(fromBlock + maxRange - 1, toBlock);
      var r := Ranges(fromBlock, toBlock, maxRange);
      var rest := Ranges(end + 1, toBlock, maxRange);
      assert r == [Range(fromBlock, end)] + rest;
      if b > end {
        RangesCover(end + 1, toBlock, maxRange, b);
        var k :| 0 <= k < |rest| && In(rest[k], b);
        assert r[k + 1] == rest[k];
      } else {
        assert In(r[0], b);
      }
    }
  }

  /** The tip block is left to the next run exactly when the distance from the
      cursor to the tip is a multiple of `maxRange`: the loop guard is
      `start < toBlock`, so it stops on reaching the tip. */
  lemma {:induction false} LastRangeEnd(fromBlock: nat, toBlock: nat, maxRange: nat)
    requires maxRange >= 1
    requires fromBlock < toBlock
    ensures var r := Ranges(fromBlock, toBlock, maxRange);
      |r| > 0 &&
      r[|r| - 1].toBlock == if (toBlock - fromBlock) % maxRange == 0 then toBlock - 1 else toBlock
    decreases toBlock - fromBlock
  {
    var end := BigintMin(fromBlock + maxRange - 1, toBlock);
    var r := Ranges(fromBlock, toBlock, maxRange);
    var rest := Ranges(end + 1, toBlock, maxRange);
    assert r == [Range(fromBlock, end)] + rest;
    var n := toBlock - fromBlock;
    if fromBlock + maxRange - 1 >= toBlock {
      assert end == toBlock && rest == [];
      assert n % maxRange == 0 <==> n == maxRange by {
        SmallMod(n, maxRange);
      }
    } else if fromBlock + maxRange == toBlock {
      assert end + 1 == toBlock && rest == [];
      assert n % maxRange == 0 by {
        SmallMod(n, maxRange);
      }
    } else {
      assert end == fromBlock + maxRange - 1;
      LastRangeEnd(end + 1, toBlock, maxRange);
      assert (n - maxRange) % maxRange == n % maxRange by {
        ModShift(n - maxRange, maxRange);
      }
      assert r[|r| - 1] == rest[|rest| - 1];
    }
  }

  lemma ModShift(x: nat, m: nat)
    requires m >= 1
    ensures (x + m) % m == x % m
  {
    var d := (x + m) / m - x / m;
    var e := (x + m) % m - x % m;
    assert x + m == ((x + m) / m) * m + (x + m) % m;
    assert x == (x / m) * m + x % m;
    assert m == d * m + e;
    assert m * (1 - d) == e;
    MulBound(m, 1 - d);
  }

  lemma SmallMod(n: nat, m: nat)
    requires 1 <= n <= m
    ensures n % m == 0 <==> n == m
  {
    if n < m {
      assert n % m == n;
    }
  }

  lemma MulBound(m: int, k: int)
    requires m >= 1
    ensures k >= 1 ==> m * k >= m
    ensures k <= -1 ==> m * k <= -m
  {
    if k >= 1 {
      assert m * k == m * (k - 1) + m;
      MulNonNeg(m, k - 1);
    }
    if k <= -1 {
      assert m * k == m * (k + 1) - m;
      MulNonNeg(m, -(k + 1));
      assert m * (k + 1) == -(m * (-(k + 1)));
    }
  }

  lemma MulNonNeg(m: int, k: int)
    requires m >= 0 && k >= 0
    ensures m * k >= 0
  {
  }
}
