/** The project-wide helper of src/utils.py. */
module Utils {

  /** Index at which the last block of a length-`len` sequence starts when
      the sequence is cut into blocks of `modulo` elements (the last block
      may be shorter, and is a full block when `len` is a multiple).
      Python raises ZeroDivisionError for a zero modulo, hence the requires. */
  function BeginningOfModuloLocation(len: nat, modulo: nat): (r: int)
    requires modulo > 0
    ensures len > 0 ==> 0 <= r < len && r % modulo == 0 && 1 <= len - r <= modulo
    ensures len == 0 ==> r == -(modulo as int)
  {
    var m := len % modulo;
    var mod := if m == 0 then modulo else m;
    LastBlockStart(len, modulo);
    len - mod
  }

  /** The start of the last block is the only multiple of the block size
      that leaves between 1 and `modulo` elements after it. */
  lemma LastBlockStartUnique(len: nat, modulo: nat, start: int)
    requires modulo > 0 && 0 <= start && start % modulo == 0 && 1 <= len - start <= modulo
    ensures BeginningOfModuloLocation(len, modulo) == start
  {
    var r := BeginningOfModuloLocation(len, modulo);
    DivUnique(start, modulo, start / modulo, 0);
    DivUnique(r, modulo, r / modulo, 0);
    var d := start / modulo - r / modulo;
    assert start - r == d * modulo;
    assert d >= 1 ==> d * modulo >= modulo;
    assert d <= -1 ==> d * modulo <= -(modulo as int);
  }

  /** The last block starts at a multiple of the block size. */
  lemma LastBlockStart(len: nat, modulo: nat)
    requires modulo > 0
    ensures var m := len % modulo;
      (len - (if m == 0 then modulo else m)) % modulo == 0
  {
    var q, m := len / modulo, len % modulo;
    assert len == q * modulo + m;
    if m == 0 {
      assert len - modulo == (q - 1) * modulo;
      DivUnique(len - modulo, modulo, q - 1, 0);
    } else {
      DivUnique(len - m, modulo, q, 0);
    }
  }

  /** Euclidean division is determined by quotient and remainder. */
  lemma DivUnique(x: int, d: nat, q: int, r: int)
    requires d > 0 && x == q * d + r && 0 <= r < d
    ensures x / d == q && x % d == r
  {
    var q', r' := x / d, x % d;
    assert x == q' * d + r';
    assert (q - q') * d == r' - r;
    assert q - q' >= 1 ==> (q - q') * d >= d;
    assert q - q' <= -1 ==> (q - q') * d <= -(d as int);
  }

  /** The example the source documents: a length of 16 cut by 7 gives 14. */
  lemma DocumentedExample()
    ensures BeginningOfModuloLocation(16, 7) == 14
  {
  }
}

/** Helpers of the pacing package (src/system/budget_pacing/mystique/mystique_utils.py)
    and the summation they rely on. */
module MystiqueUtils {
  import Utils

  /** Python's min of two values: the first one unless the second is smaller. */
  function Min(a: real, b: real): (r: real)
    ensures r <= a && r <= b && (r == a || r == b)
  {
    if b < a then b else a
  }

  /** Python's sum over a list, folded from the left. */
  function Sum(s: seq<real>): real
  {
    if |s| == 0 then 0.0 else Sum(s[..|s| - 1]) + s[|s| - 1]
  }

  lemma {:induction false} SumAppend(s: seq<real>, t: seq<real>)
    ensures Sum(s + t) == Sum(s) + Sum(t)
  {
    if |t| == 0 {
      assert s + t == s;
    } else {
      assert (s + t)[..|s + t| - 1] == s + t[..|t| - 1];
      SumAppend(s, t[..|t| - 1]);
    }
  }

  lemma {:induction false} SumNonNegative(s: seq<real>)
    requires forall i :: 0 <= i < |s| ==> 0.0 <= s[i]
    ensures 0.0 <= Sum(s)
  {
    if |s| > 0 {
      SumNonNegative(s[..|s| - 1]);
    }
  }

  lemma SumNonNegativeIf(s: seq<real>, cond: bool)
    requires cond ==> forall i :: 0 <= i < |s| ==> 0.0 <= s[i]
    ensures cond ==> 0.0 <= Sum(s)
  {
    if cond {
      SumNonNegative(s);
    }
  }

  /** Every element lies between lo and hi, so the sum lies between |s|*lo and |s|*hi. */
  lemma {:induction false} SumBounds(s: seq<real>, lo: real, hi: real)
    requires forall i :: 0 <= i < |s| ==> lo <= s[i] <= hi
    ensures |s| as real * lo <= Sum(s) <= |s| as real * hi
  {
    if |s| > 0 {
      SumBounds(s[..|s| - 1], lo, hi);
    }
  }

  /** The location of the last block, as in src/utils.py (the pacing package
      repeats the same function). */
  function BeginningOfModuloLocation(arr: seq<seq<real>>, modulo: nat): (r: int)
    requires modulo > 0
    ensures |arr| > 0 ==> 0 <= r < |arr| && r % modulo == 0 && 1 <= |arr| - r <= modulo
  {
    Utils.BeginningOfModuloLocation(|arr|, modulo)
  }

  /** Last components of a list of non-empty tuples. */
  function LastItems(arr: seq<seq<real>>): (r: seq<real>)
    requires forall i :: 0 <= i < |arr| ==> |arr[i]| > 0
    ensures |r| == |arr| && forall i :: 0 <= i < |arr| ==> r[i] == arr[i][|arr[i]| - 1]
  {
    seq(|arr|, i requires 0 <= i < |arr| => arr[i][|arr[i]| - 1])
  }

  /** Every tuple's last component is non-negative. */
  predicate LastItemsNonNegative(arr: seq<seq<real>>)
  {
    forall i :: 0 <= i < |arr| ==> |arr[i]| > 0 && arr[i][|arr[i]| - 1] >= 0.0
  }

  /** Sum of the last components of every tuple: 0 for no tuples, and not
      negative when no component is. */
  function SumOfLastTupleItem(arr: seq<seq<real>>): (r: real)
    requires forall i :: 0 <= i < |arr| ==> |arr[i]| > 0
    ensures |arr| == 0 ==> r == 0.0
    ensures LastItemsNonNegative(arr) ==> r >= 0.0
  {
    var items := LastItems(arr);
    SumNonNegativeIf(items, LastItemsNonNegative(arr));
    Sum(items)
  }

  /** The sums of the last components of two lists add up. */
  lemma {:induction false} SumOfLastTupleItemAppend(a: seq<seq<real>>, b: seq<seq<real>>)
    requires forall i :: 0 <= i < |a| ==> |a[i]| > 0
    requires forall i :: 0 <= i < |b| ==> |b[i]| > 0
    ensures SumOfLastTupleItem(a + b) == SumOfLastTupleItem(a) + SumOfLastTupleItem(b)
  {
    assert LastItems(a + b) == LastItems(a) + LastItems(b);
    SumAppend(LastItems(a), LastItems(b));
  }

  /** Sum of the last components of the tuples in the last block: 0 for an
      empty list, and when no component is negative, between 0 and the sum
      over the whole list. */
  function SumOfLastTupleItemFromModuloLocation(arr: seq<seq<real>>, modulo: nat): (r: real)
    requires modulo > 0
    requires forall i :: 0 <= i < |arr| ==> |arr[i]| > 0
    ensures |arr| == 0 ==> r == 0.0
    ensures LastItemsNonNegative(arr) ==> 0.0 <= r <= SumOfLastTupleItem(arr)
  {
    var start := BeginningOfModuloLocation(arr, modulo);
    if |arr| == 0 then 0.0 else
      SumOfLastTupleItemSplit(arr, start);
      SumOfLastTupleItem(arr[start..])
  }

  /** Splitting a list splits the sum of its last components, and keeps
      them non-negative on both sides. */
  lemma SumOfLastTupleItemSplit(arr: seq<seq<real>>, k: nat)
    requires k <= |arr| && forall i :: 0 <= i < |arr| ==> |arr[i]| > 0
    ensures SumOfLastTupleItem(arr) == SumOfLastTupleItem(arr[..k]) + SumOfLastTupleItem(arr[k..])
    ensures LastItemsNonNegative(arr) ==> LastItemsNonNegative(arr[..k]) && LastItemsNonNegative(arr[k..])
  {
    assert arr == arr[..k] + arr[k..];
    SumOfLastTupleItemAppend(arr[..k], arr[k..]);
  }

  /** The last-block sum is the sum of the last components from the block's
      start to the end, and for an empty list it is 0. */
  lemma {:induction false} LastBlockSum(arr: seq<seq<real>>, modulo: nat)
    requires modulo > 0
    requires forall i :: 0 <= i < |arr| ==> |arr[i]| > 0
    ensures |arr| == 0 ==> SumOfLastTupleItemFromModuloLocation(arr, modulo) == 0.0
    ensures |arr| > 0 ==>
      var start := Utils.BeginningOfModuloLocation(|arr|, modulo);
      SumOfLastTupleItemFromModuloLocation(arr, modulo) + SumOfLastTupleItem(arr[..start]) == SumOfLastTupleItem(arr)
  {
    if |arr| > 0 {
      var start := Utils.BeginningOfModuloLocation(|arr|, modulo);
      assert arr == arr[..start] + arr[start..];
      assert LastItems(arr) == LastItems(arr[..start]) + LastItems(arr[start..]);
      SumAppend(LastItems(arr[..start]), LastItems(arr[start..]));
    }
  }

  /** Arithmetic mean of a non-empty chunk. */
  function Mean(s: seq<real>): (r: real)
    requires |s| > 0
    ensures r * |s| as real == Sum(s)
  {
    Sum(s) / |s| as real
  }

  /** Number of chunks of `size` elements a length-`len` list splits into. */
  function NumChunks(len: nat, size: nat): nat
    requires size > 0
  {
    (len + size - 1) / size
  }

  /** Every chunk index below NumChunks starts inside the list. */
  lemma ChunkStartsInside(len: nat, size: nat, k: nat)
    requires size > 0 && k < NumChunks(len, size)
    ensures k * size < len
  {
    var x := len + size - 1;
    var q := x / size;
    assert x == q * size + x % size;
    assert q * size <= x;
    assert k <= q - 1;
    MulMonotone(k, q - 1, size);
    assert (q - 1) * size == q * size - size;
  }

  lemma MulMonotone(a: int, b: int, c: nat)
    requires a <= b
    ensures a * c <= b * c
  {
    assert b * c - a * c == (b - a) * c;
  }

  /** End (exclusive) of chunk k: a full chunk, or what is left of the list. */
  function ChunkEnd(k: nat, size: nat, len: nat): nat
  {
    if (k + 1) * size < len then (k + 1) * size else len
  }

  /** The mean of each consecutive chunk of `size` elements (the last chunk
      may be shorter), chunk k being arr[k*size .. ChunkEnd(k)). Python
      raises for a zero step, hence the requires. */
  function AveragePerSize(arr: seq<real>, size: nat): (r: seq<real>)
    requires size > 0
    ensures |r| == NumChunks(|arr|, size)
  {
    seq(NumChunks(|arr|, size), k requires 0 <= k < NumChunks(|arr|, size) =>
      ChunkStartsInside(|arr|, size, k);
      MulStep(k + 1, size);
      Mean(arr[k * size..ChunkEnd(k, size, |arr|)]))
  }

  lemma MulStep(k: nat, size: nat)
    requires k > 0
    ensures k * size == (k - 1) * size + size
  {
  }

  /** A day of 1440 per-minute samples gives 24 hourly averages. */
  lemma HourlyAveragesOfADay(arr: seq<real>)
    requires |arr| == 1440
    ensures |AveragePerSize(arr, 60)| == 24
  {
  }

  /** Each chunk average lies between the chunk's smallest and largest element. */
  lemma MeanBetween(s: seq<real>, lo: real, hi: real)
    requires |s| > 0
    requires forall i :: 0 <= i < |s| ==> lo <= s[i] <= hi
    ensures lo <= Mean(s) <= hi
  {
    SumBounds(s, lo, hi);
    var n := |s| as real;
    assert n * lo <= Sum(s) <= n * hi;
    assert Sum(s) / n >= lo by { assert Sum(s) >= lo * n; }
    assert Sum(s) / n <= hi by { assert Sum(s) <= hi * n; }
  }

  /** When every element lies in [lo, hi], so does every chunk average. */
  lemma AveragePerSizeBounds(arr: seq<real>, size: nat, lo: real, hi: real)
    requires size > 0
    requires forall i :: 0 <= i < |arr| ==> lo <= arr[i] <= hi
    ensures forall k :: 0 <= k < |AveragePerSize(arr, size)| ==> lo <= AveragePerSize(arr, size)[k] <= hi
  {
    forall k | 0 <= k < |AveragePerSize(arr, size)|
      ensures lo <= AveragePerSize(arr, size)[k] <= hi
    {
      ChunkStartsInside(|arr|, size, k);
      MulStep(k + 1, size);
      var chunk := arr[k * size..ChunkEnd(k, size, |arr|)];
      assert AveragePerSize(arr, size)[k] == Mean(chunk);
      MeanBetween(chunk, lo, hi);
    }
  }
}
