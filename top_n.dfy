/**
 * `topN` of src/inference_server.cpp over integer tensor elements: for each
 * batch of the output tensor, the indices of its largest elements, largest
 * first, found by `std::iota` and `std::partial_sort` with the comparator
 * `batchData[l] > batchData[r]`.
 */
module TopIndices {
  import opened Wrappers
  import opened Shape

  /** The `OPENVINO_ASSERT` at the head of `topN`. */
  datatype TensorError = InputShapeMismatch

  /** 0, 1, ..., m - 1, what `std::iota` writes into the index vector. */
  function Range(m: nat): (r: seq<nat>)
    ensures |r| == m
    ensures forall i :: 0 <= i < m ==> r[i] == i
  {
    seq(m, i => i)
  }

  /**
   * `sel` lists distinct indices of `vals`, their values do not increase
   * along `sel`, and no index left out has a value above a selected one:
   * what `partial_sort` leaves in the first |sel| places of an iota.
   */
  ghost predicate IsTopSelection(vals: seq<int>, sel: seq<nat>)
  {
    && (forall j :: 0 <= j < |sel| ==> sel[j] < |vals|)
    && (forall j, j' :: 0 <= j < j' < |sel| ==> sel[j] != sel[j'])
    && (forall j, j' :: 0 <= j < j' < |sel| ==> vals[sel[j']] <= vals[sel[j]])
    && (forall u, j :: 0 <= u < |vals| && u !in sel && 0 <= j < |sel| ==> vals[u] <= vals[sel[j]])
  }

  /** The number of elements in one batch (`input.get_size() / batchSize`). */
  function PerBatch(shape: seq<nat>): nat
    requires |shape| > 0 && shape[0] > 0
  {
    Product(shape) / shape[0]
  }

  /** A batch holds the product of the dims after the first. */
  lemma PerBatchIsTail(shape: seq<nat>)
    requires |shape| > 0 && shape[0] > 0
    ensures PerBatch(shape) == Product(shape[1..])
    ensures Product(shape) == shape[0] * PerBatch(shape)
    ensures PerBatch(shape) <= Product(shape)
  {
    var b, t := shape[0], Product(shape[1..]);
    assert Product(shape) == b * t;
    DivExact(b, t);
    MulMonotone(1, b, t);
  }

  lemma DivExact(b: nat, t: nat)
    requires b > 0
    ensures (b * t) / b == t
  {
    var q, r := (b * t) / b, (b * t) % b;
    assert b * t == q * b + r && 0 <= r < b;
    assert (t - q) * b == r;
    MulSign(t - q, b);
  }

  /** A multiple of b by a non-zero factor is at least b away from zero. */
  lemma MulSign(x: int, b: nat)
    ensures x >= 1 ==> x * b >= b
    ensures x <= -1 ==> x * b + b <= 0
  {
    if x >= 1 {
      MulMonotone(1, x, b);
    }
    if x <= -1 {
      MulMonotone(1, -x, b);
    }
  }

  /**
   * How many indices `topN` keeps per batch: `n`, cut down to fit in one
   * batch, so that `partial_sort`'s middle iterator stays in the index vector.
   */
  function TopCount(n: nat, shape: seq<nat>): (k: nat)
    requires |shape| > 0 && shape[0] > 0
    ensures k <= PerBatch(shape)
    ensures k <= n
    ensures k == n || k == PerBatch(shape)
  {
    if n < PerBatch(shape) then n else PerBatch(shape)
  }

  /** The count the C++ computes: `n` cut down to the whole tensor's element count. */
  function TopCountAsWritten(n: nat, shape: seq<nat>): (k: nat)
    ensures k <= n && k <= Product(shape)
    ensures k == n || k == Product(shape)
  {
    if n < Product(shape) then n else Product(shape)
  }

  /**
   * Whenever the count the C++ computes fits in one batch, it is the
   * corrected count, so `TopN` then returns what the C++ returns.
   */
  lemma TopCountAsWrittenWithinBatch(n: nat, shape: seq<nat>)
    requires |shape| > 0 && shape[0] > 0
    requires TopCountAsWritten(n, shape) <= PerBatch(shape)
    ensures TopCountAsWritten(n, shape) == TopCount(n, shape)
  {
    PerBatchIsTail(shape);
  }

  /**
   * For the output shape [3] with 3 labels, which the constructor accepts,
   * the C++ keeps 3 indices of a batch that holds only one element.
   */
  lemma TopCountAsWrittenOverrunsBatch()
    ensures ShapeAccepted([3], 3)
    ensures TopCountAsWritten(5, [3]) == 3
    ensures PerBatch([3]) == 1
    ensures TopCountAsWritten(5, [3]) > PerBatch([3])
    ensures TopCount(5, [3]) == 1
  {
    assert Product([3]) == 3 * Product([]);
  }

  /** The i-th block of width w of s. */
  function Slice<X>(s: seq<X>, i: nat, w: nat): seq<X>
  {
    if i * w + w <= |s| then s[i * w .. i * w + w] else []
  }

  /**
   * `out` is what `topN(n, input, out)` produces for a tensor of shape
   * `shape` with elements `data`: one block of TopCount indices per batch,
   * each block a top selection of its batch.
   */
  ghost predicate IsTopN(n: nat, shape: seq<nat>, data: seq<int>, out: seq<nat>)
    requires |shape| > 0 && shape[0] > 0
  {
    var b, m, k := shape[0], PerBatch(shape), TopCount(n, shape);
    && |out| == k * b
    && forall i :: 0 <= i < b ==> IsTopSelection(Slice(data, i, m), Slice(out, i, k))
  }

  /** `std::iota`. */
  method FillIota(a: array<nat>)
    modifies a
    ensures a[..] == Range(a.Length)
  {
    for i := 0 to a.Length
      invariant forall p :: 0 <= p < i ==> a[p] == p
    {
      a[i] := i;
    }
  }

  /** The place, from `j` on, of an index of `a` with the largest value in `vals`. */
  method LargestFrom(a: array<nat>, j: nat, vals: seq<int>) returns (best: nat)
    requires j < a.Length
    requires forall p :: 0 <= p < a.Length ==> a[p] < |vals|
    ensures j <= best < a.Length
    ensures forall q :: j <= q < a.Length ==> vals[a[q]] <= vals[a[best]]
  {
    best := j;
    for t := j + 1 to a.Length
      invariant j <= best < t
      invariant forall q :: j <= q < t ==> vals[a[q]] <= vals[a[best]]
    {
      if vals[a[t]] > vals[a[best]] {
        best := t;
      }
    }
  }

  /**
   * `std::partial_sort(a, a + k, a + a.Length, cmp)` with
   * `cmp(l, r) = vals[l] > vals[r]`, done by selection: the result is a
   * rearrangement of `a` whose first k places are non-increasing in value
   * and hold values no smaller than any later place.
   */
  method PartialSort(a: array<nat>, k: nat, vals: seq<int>)
    requires k <= a.Length
    requires forall p :: 0 <= p < a.Length ==> a[p] < |vals|
    modifies a
    ensures multiset(a[..]) == old(multiset(a[..]))
    ensures forall p :: 0 <= p < a.Length ==> a[p] < |vals|
    ensures SortedPrefix(a[..], k, vals)
  {
    for j := 0 to k
      invariant multiset(a[..]) == old(multiset(a[..]))
      invariant forall p :: 0 <= p < a.Length ==> a[p] < |vals|
      invariant SortedPrefix(a[..], j, vals)
    {
      PlaceLargest(a, j, vals);
    }
  }

  /** The first j places of s are non-increasing in value and no later place beats them. */
  ghost predicate SortedPrefix(s: seq<nat>, j: nat, vals: seq<int>)
    requires forall p :: 0 <= p < |s| ==> s[p] < |vals|
  {
    forall p, q :: 0 <= p < j && p < q < |s| ==> vals[s[q]] <= vals[s[p]]
  }

  /** One selection step: swaps an index of largest value from place j on into place j. */
  method PlaceLargest(a: array<nat>, j: nat, vals: seq<int>)
    requires j < a.Length
    requires forall p :: 0 <= p < a.Length ==> a[p] < |vals|
    requires SortedPrefix(a[..], j, vals)
    modifies a
    ensures multiset(a[..]) == old(multiset(a[..]))
    ensures forall p :: 0 <= p < a.Length ==> a[p] < |vals|
    ensures SortedPrefix(a[..], j + 1, vals)
  {
    ghost var s := a[..];
    var best := LargestFrom(a, j, vals);
    assert forall q :: j <= q < |s| ==> vals[s[q]] <= vals[s[best]];
    a[j], a[best] := a[best], a[j];
    assert a[..] == Swap(s, j, best);
    SwapExtendsSortedPrefix(s, j, best, vals);
  }

  /** s with places j and best exchanged. */
  function Swap(s: seq<nat>, j: nat, best: nat): (t: seq<nat>)
    requires j < |s| && best < |s|
    ensures |t| == |s|
  {
    s[j := s[best]][best := s[j]]
  }

  /** Swapping a largest index from place j on into place j extends the sorted prefix. */
  lemma SwapExtendsSortedPrefix(s: seq<nat>, j: nat, best: nat, vals: seq<int>)
    requires j <= best < |s|
    requires forall p :: 0 <= p < |s| ==> s[p] < |vals|
    requires SortedPrefix(s, j, vals)
    requires forall q :: j <= q < |s| ==> vals[s[q]] <= vals[s[best]]
    ensures forall p :: 0 <= p < |s| ==> Swap(s, j, best)[p] < |vals|
    ensures multiset(Swap(s, j, best)) == multiset(s)
    ensures SortedPrefix(Swap(s, j, best), j + 1, vals)
  {
    var t := Swap(s, j, best);
    forall p, q | 0 <= p < j + 1 && p < q < |t|
      ensures vals[t[q]] <= vals[t[p]]
    {
      if p < j {
        assert t[p] == s[p];
        assert t[q] == s[q] || t[q] == s[best] || t[q] == s[j];
      }
    }
  }

  /** A sequence without repeats holds each value at most once. */
  lemma {:induction false} DistinctCountAtMostOne(t: seq<nat>, x: nat)
    requires forall p, q :: 0 <= p < q < |t| ==> t[p] != t[q]
    ensures multiset(t)[x] <= 1
  {
    if |t| > 0 {
      assert t == [t[0]] + t[1..];
      assert t[0] !in t[1..];
      DistinctCountAtMostOne(t[1..], x);
    }
  }

  /** A rearrangement of 0..m-1 lists each of 0..m-1 exactly once. */
  lemma PermutationOfRange(s: seq<nat>, m: nat)
    requires multiset(s) == multiset(Range(m))
    ensures forall p :: 0 <= p < |s| ==> s[p] < m
    ensures forall p, q :: 0 <= p < q < |s| ==> s[p] != s[q]
    ensures forall u: nat :: u < m ==> u in s
  {
    forall p | 0 <= p < |s|
      ensures s[p] < m
    {
      assert s[p] in multiset(Range(m));
    }
    forall u: nat | u < m
      ensures u in s
    {
      assert Range(m)[u] == u;
      assert u in multiset(s);
    }
    forall p, q | 0 <= p < q < |s|
      ensures s[p] != s[q]
    {
      if s[p] == s[q] {
        var x := s[p];
        assert s == s[..q] + s[q..];
        assert x in s[..q] && x in s[q..];
        assert multiset(s)[x] == multiset(s[..q])[x] + multiset(s[q..])[x];
        DistinctCountAtMostOne(Range(m), x);
        assert false;
      }
    }
  }

  /**
   * The first k places of a partially sorted rearrangement of the indices
   * of `vals` are a top selection of `vals`.
   */
  lemma SelectionFromSortedPermutation(vals: seq<int>, s: seq<nat>, k: nat)
    requires multiset(s) == multiset(Range(|vals|))
    requires k <= |s|
    requires forall p :: 0 <= p < |s| ==> s[p] < |vals|
    requires SortedPrefix(s, k, vals)
    ensures IsTopSelection(vals, s[..k])
  {
    PermutationOfRange(s, |vals|);
    var sel := s[..k];
    forall u, j | 0 <= u < |vals| && u !in sel && 0 <= j < |sel|
      ensures vals[u] <= vals[sel[j]]
    {
      assert u in s;
      var q :| 0 <= q < |s| && s[q] == u;
    }
  }

  /** The inner loop of `topN`: copies the first k indices to places base .. base + k - 1. */
  method CopyBlock(output: array<nat>, base: nat, indexes: array<nat>, k: nat)
    requires base + k <= output.Length && k <= indexes.Length
    requires output != indexes
    modifies output
    ensures forall p :: 0 <= p < output.Length && !(base <= p < base + k) ==> output[p] == old(output[p])
    ensures forall j :: 0 <= j < k ==> output[base + j] == indexes[j]
    ensures output[base .. base + k] == indexes[..k]
  {
    for j := 0 to k
      invariant forall p :: 0 <= p < output.Length && !(base <= p < base + j) ==> output[p] == old(output[p])
      invariant forall j' :: 0 <= j' < j ==> output[base + j'] == indexes[j']
    {
      output[base + j] := indexes[j];
    }
  }

  /** The first i blocks of `out` are top selections of the first i batches of `data`. */
  ghost predicate BlocksDone(data: seq<int>, out: seq<nat>, m: nat, k: nat, i: nat)
  {
    forall i' :: 0 <= i' < i ==> IsTopSelection(Slice(data, i', m), Slice(out, i', k))
  }

  /** Writing block i, and nothing before it, extends the finished prefix by one block. */
  lemma BlocksDoneStep(data: seq<int>, before: seq<nat>, after: seq<nat>, m: nat, k: nat, i: nat)
    requires BlocksDone(data, before, m, k, i)
    requires |before| == |after| && i * k + k <= |after| && i * m + m <= |data|
    requires forall p :: 0 <= p < i * k ==> after[p] == before[p]
    requires IsTopSelection(data[i * m .. i * m + m], after[i * k .. i * k + k])
    ensures BlocksDone(data, after, m, k, i + 1)
  {
    forall i' | 0 <= i' < i + 1
      ensures IsTopSelection(Slice(data, i', m), Slice(after, i', k))
    {
      if i' < i {
        EarlierBlockKept(before, after, k, i', i);
        assert IsTopSelection(Slice(data, i', m), Slice(before, i', k));
      } else {
        NewBlockDone(data, after, m, k, i);
      }
    }
  }

  /** Block i, written as a top selection of batch i, is block i of the finished prefix. */
  lemma NewBlockDone(data: seq<int>, after: seq<nat>, m: nat, k: nat, i: nat)
    requires i * k + k <= |after| && i * m + m <= |data|
    requires IsTopSelection(data[i * m .. i * m + m], after[i * k .. i * k + k])
    ensures IsTopSelection(Slice(data, i, m), Slice(after, i, k))
  {
    assert Slice(data, i, m) == data[i * m .. i * m + m];
    assert Slice(after, i, k) == after[i * k .. i * k + k];
  }

  /** A block that lies wholly before place i * k is the same in two sequences that agree there. */
  lemma EarlierBlockKept(before: seq<nat>, after: seq<nat>, k: nat, i': nat, i: nat)
    requires i' < i && i * k <= |before| == |after|
    requires forall p :: 0 <= p < i * k ==> after[p] == before[p]
    ensures Slice(after, i', k) == Slice(before, i', k)
  {
    MulMonotone(i' + 1, i, k);
    assert i' * k + k <= i * k;
    PrefixAgreement(before, after, i' * k, k, i * k);
  }

  lemma PrefixAgreement(before: seq<nat>, after: seq<nat>, start: nat, w: nat, limit: nat)
    requires start + w <= limit <= |before| == |after|
    requires forall p :: 0 <= p < limit ==> after[p] == before[p]
    ensures after[start .. start + w] == before[start .. start + w]
  {
  }

  /**
   * One pass of `topN`'s outer loop: iota, partial sort by value of the
   * batch that starts at `offset`, and the copy of its first k indices to
   * the output block that starts at `base`.
   */
  method SelectBatch(data: seq<int>, offset: nat, m: nat, indexes: array<nat>, output: array<nat>, base: nat, k: nat)
    requires indexes.Length == m && k <= m
    requires offset + m <= |data| && base + k <= output.Length
    requires output != indexes
    requires forall p :: 0 <= p < output.Length ==> output[p] < m
    modifies indexes, output
    ensures forall p :: 0 <= p < output.Length ==> output[p] < m
    ensures forall p :: 0 <= p < base ==> output[p] == old(output[p])
    ensures IsTopSelection(data[offset .. offset + m], output[base .. base + k])
  {
    var batchData := data[offset .. offset + m];
    FillIota(indexes);
    ghost var iota := indexes[..];
    PartialSort(indexes, k, batchData);
    ghost var sorted := indexes[..];
    assert multiset(sorted) == multiset(Range(m)) by {
      assert iota == Range(m);
    }
    SelectionFromSortedPermutation(batchData, sorted, k);
    CopyBlock(output, base, indexes, k);
    forall p | 0 <= p < output.Length
      ensures output[p] < m
    {
      if base <= p < base + k {
        assert output[p] == indexes[p - base];
      }
    }
    assert output[base .. base + k] == sorted[..k];
  }

  /** `topN`'s outer loop: block i of `output` gets the top k indices of batch i. */
  method SelectAllBatches(data: seq<int>, b: nat, m: nat, k: nat, indexes: array<nat>, output: array<nat>)
    requires |data| == b * m && k <= m
    requires indexes.Length == m && output.Length == k * b
    requires output != indexes
    requires forall p :: 0 <= p < output.Length ==> output[p] < m
    modifies indexes, output
    ensures BlocksDone(data, output[..], m, k, b)
    ensures forall p :: 0 <= p < output.Length ==> output[p] < m
  {
    for i := 0 to b
      invariant BlocksDone(data, output[..], m, k, i)
      invariant forall p :: 0 <= p < output.Length ==> output[p] < m
    {
      MulMonotone(i + 1, b, m);
      MulMonotone(i + 1, b, k);
      ghost var before := output[..];
      SelectBatch(data, i * m, m, indexes, output, i * k, k);
      BlocksDoneStep(data, before, output[..], m, k, i);
    }
  }

  /**
   * `topN(n, input, output)` for an integer tensor with shape `shape` and
   * elements `data`. A tensor of rank 0 or with an empty first dim is rejected.
   */
  method TopN(n: nat, data: seq<int>, shape: seq<nat>) returns (r: Result<seq<nat>, TensorError>)
    requires |data| == Product(shape)
    ensures r.Failure? <==> |shape| == 0 || shape[0] == 0
    ensures r.Success? ==> IsTopN(n, shape, data, r.value)
    ensures r.Success? ==> forall x :: x in r.value ==> x < PerBatch(shape)
  {
    if |shape| == 0 || shape[0] == 0 {
      return Failure(InputShapeMismatch);
    }
    var batchSize := shape[0];
    PerBatchIsTail(shape);
    var m := |data| / batchSize;
    var k := TopCount(n, shape);
    var indexes := new nat[m];
    var output := new nat[k * batchSize](_ => 0);
    SelectAllBatches(data, batchSize, m, k, indexes, output);
    r := Success(output[..]);
  }

  /** The set of values listed in s. */
  function Elems(s: seq<nat>): set<nat>
  {
    set x | x in s
  }

  /** No value is listed twice in s. */
  predicate Distinct(s: seq<nat>)
  {
    forall p, q :: 0 <= p < q < |s| ==> s[p] != s[q]
  }

  lemma {:induction false} DistinctCard(s: seq<nat>)
    requires Distinct(s)
    ensures |Elems(s)| == |s|
  {
    if |s| > 0 {
      var t := s[1..];
      DistinctCard(t);
      assert Elems(s) == {s[0]} + Elems(t);
      assert s[0] !in Elems(t);
    }
  }

  lemma {:induction false} CardAtMostLength(s: seq<nat>)
    ensures |Elems(s)| <= |s|
  {
    if |s| > 0 {
      var t := s[1..];
      CardAtMostLength(t);
      assert Elems(s) == {s[0]} + Elems(t);
    }
  }
  lemma SubsetCard(a: set<nat>, b: set<nat>)
    requires a <= b
    ensures |a| <= |b|
  {
    assert b == a + (b - a);
  }

  /**
   * Ties may fall either way in `partial_sort`, but that is all that
   * varies: two top selections of the same length pick the same values in
   * the same order.
   */
  lemma TopValuesDetermined(vals: seq<int>, s1: seq<nat>, s2: seq<nat>)
    requires IsTopSelection(vals, s1) && IsTopSelection(vals, s2)
    requires |s1| == |s2|
    ensures forall j :: 0 <= j < |s1| ==> vals[s1[j]] == vals[s2[j]]
  {
    forall j | 0 <= j < |s1|
      ensures vals[s1[j]] == vals[s2[j]]
    {
      if vals[s1[j]] > vals[s2[j]] {
        HigherPrefixImpossible(vals, s1, s2, j);
      } else if vals[s2[j]] > vals[s1[j]] {
        HigherPrefixImpossible(vals, s2, s1, j);
      }
    }
  }

  /** An index among the first j + 1 of s1 lies above the j-th value of s2, so s2 lists it before place j. */
  lemma HighIndexListedEarly(vals: seq<int>, s1: seq<nat>, s2: seq<nat>, j: nat, x: nat)
    requires IsTopSelection(vals, s1) && IsTopSelection(vals, s2)
    requires j < |s1| && j < |s2|
    requires vals[s1[j]] > vals[s2[j]]
    requires x in s1[..j + 1]
    ensures x in s2[..j]
  {
    var p :| 0 <= p <= j && s1[p] == x;
    assert x < |vals|;
    assert vals[x] >= vals[s1[j]] by {
      if p < j {
        assert vals[s1[j]] <= vals[s1[p]];
      }
    }
    assert x in s2;
    var q :| 0 <= q < |s2| && s2[q] == x;
    assert q < j;
    assert s2[..j][q] == x;
  }

  /** Pigeonhole: j + 1 indices cannot all be above the j-th value of another top selection. */
  lemma HigherPrefixImpossible(vals: seq<int>, s1: seq<nat>, s2: seq<nat>, j: nat)
    requires IsTopSelection(vals, s1) && IsTopSelection(vals, s2)
    requires j < |s1| && j < |s2|
    ensures vals[s1[j]] <= vals[s2[j]]
  {
    if vals[s1[j]] > vals[s2[j]] {
      var high := s1[..j + 1];
      var low := s2[..j];
      forall x | x in Elems(high)
        ensures x in Elems(low)
      {
        HighIndexListedEarly(vals, s1, s2, j, x);
      }
      assert forall p, q :: 0 <= p < q < |high| ==> high[p] != high[q];
      DistinctCard(high);
      CardAtMostLength(low);
      SubsetCard(Elems(high), Elems(low));
    }
  }
}
