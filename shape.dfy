/**
 * Tensor shapes and the output-shape check that the constructor of
 * `InferenceServerImpl` (src/inference_server.cpp) runs before it accepts a
 * label file.
 */
module Shape {
  import opened Wrappers

  /** The number of elements of a tensor of this shape (C++ `get_size()`). */
  function Product(shape: seq<nat>): nat
  {
    if |shape| == 0 then 1 else shape[0] * Product(shape[1..])
  }

  /** Why the constructor rejects an output shape. */
  datatype ShapeError =
    | LabelCountMismatch   // the product of the dims differs from the label count
    | SeveralNonOneDims    // some dim is neither 1 nor the product

  /** The constructor's acceptance condition for an output shape. */
  ghost predicate ShapeAccepted(shape: seq<nat>, labelCount: nat)
  {
    && Product(shape) == labelCount
    && forall i :: 0 <= i < |shape| ==> shape[i] == labelCount || shape[i] == 1
  }

  /** `std::accumulate` folds from the left; the product is the same. */
  lemma {:induction false} ProductAppend(shape: seq<nat>, d: nat)
    ensures Product(shape + [d]) == Product(shape) * d
  {
    if |shape| == 0 {
      assert shape + [d] == [d];
    } else {
      assert (shape + [d])[1..] == shape[1..] + [d];
      ProductAppend(shape[1..], d);
    }
  }

  /** The element count is zero exactly when some dim is zero. */
  lemma {:induction false} ProductZero(shape: seq<nat>)
    ensures Product(shape) == 0 <==> exists i :: 0 <= i < |shape| && shape[i] == 0
  {
    if |shape| > 0 {
      ProductZero(shape[1..]);
      if Product(shape) == 0 && shape[0] != 0 {
        var i :| 0 <= i < |shape[1..]| && shape[1..][i] == 0;
        assert shape[i + 1] == 0;
      }
      if exists i :: 0 <= i < |shape| && shape[i] == 0 {
        var i :| 0 <= i < |shape| && shape[i] == 0;
        if i > 0 {
          assert shape[1..][i - 1] == 0;
        }
      }
    }
  }

  lemma MulMonotone(a: nat, b: nat, c: nat)
    requires a <= b
    ensures a * c <= b * c
  {
  }

  /** With no zero dim, every dim, and every product of two dims, is at most the element count. */
  lemma {:induction false} TwoDimsBelowProduct(shape: seq<nat>, i: nat, j: nat)
    requires forall k :: 0 <= k < |shape| ==> shape[k] >= 1
    requires i < |shape| && j < |shape| && i != j
    ensures shape[i] * shape[j] <= Product(shape)
  {
    if i == 0 {
      HeadTimesDimBelowProduct(shape, j);
    } else if j == 0 {
      HeadTimesDimBelowProduct(shape, i);
    } else {
      var tail := shape[1..];
      assert forall k :: 0 <= k < |tail| ==> tail[k] >= 1;
      TwoDimsBelowProduct(tail, i - 1, j - 1);
      assert shape[i] * shape[j] == tail[i - 1] * tail[j - 1];
      MulMonotone(1, shape[0], Product(tail));
    }
  }

  lemma HeadTimesDimBelowProduct(shape: seq<nat>, j: nat)
    requires forall k :: 0 <= k < |shape| ==> shape[k] >= 1
    requires 0 < j < |shape|
    ensures shape[0] * shape[j] <= Product(shape)
  {
    var tail := shape[1..];
    assert forall k :: 0 <= k < |tail| ==> tail[k] >= 1;
    DimBelowProduct(tail, j - 1);
    MulMonotone(tail[j - 1], Product(tail), shape[0]);
  }

  lemma {:induction false} DimBelowProduct(shape: seq<nat>, i: nat)
    requires forall k :: 0 <= k < |shape| ==> shape[k] >= 1
    requires i < |shape|
    ensures shape[i] <= Product(shape)
  {
    var tail := shape[1..];
    assert forall k :: 0 <= k < |tail| ==> tail[k] >= 1;
    if i == 0 {
      ProductZero(tail);
      MulMonotone(1, Product(tail), shape[0]);
    } else {
      DimBelowProduct(tail, i - 1);
      MulMonotone(1, shape[0], Product(tail));
    }
  }

  /**
   * What the constructor's error message says: an accepted shape for a
   * non-empty label file has at most one dim that is not 1.
   */
  lemma AtMostOneNonOneDim(shape: seq<nat>, labelCount: nat)
    requires ShapeAccepted(shape, labelCount)
    requires labelCount != 0
    ensures forall i, j :: 0 <= i < j < |shape| && shape[i] != 1 ==> shape[j] == 1
  {
    ProductZero(shape);
    forall i, j | 0 <= i < j < |shape| && shape[i] != 1
      ensures shape[j] == 1
    {
      if shape[j] != 1 {
        TwoDimsBelowProduct(shape, i, j);
        assert labelCount * labelCount <= labelCount;
        MulMonotone(2, labelCount, labelCount);
      }
    }
  }

  /**
   * The constructor's check: it accumulates the product of the output dims,
   * demands that it equal the label count, then demands that every dim be 1
   * or that product.
   */
  method CheckOutputShape(shape: seq<nat>, labelCount: nat) returns (r: Outcome<ShapeError>)
    ensures r.Pass? <==> ShapeAccepted(shape, labelCount)
    ensures r.Fail? ==> r.error == (if Product(shape) != labelCount then LabelCountMismatch else SeveralNonOneDims)
  {
    var total := 1;
    for i := 0 to |shape|
      invariant total == Product(shape[..i])
    {
      ProductAppend(shape[..i], shape[i]);
      assert shape[..i + 1] == shape[..i] + [shape[i]];
      total := total * shape[i];
    }
    assert shape[..|shape|] == shape;
    if total != labelCount {
      return Fail(LabelCountMismatch);
    }
    for i := 0 to |shape|
      invariant forall k :: 0 <= k < i ==> shape[k] == total || shape[k] == 1
    {
      if !(shape[i] == total || shape[i] == 1) {
        return Fail(SeveralNonOneDims);
      }
    }
    return Pass;
  }
}
