/**
 * The line filter of `readLabels` (src/inference_server.cpp): the label
 * list is the label file's lines with the empty ones dropped.
 */
module Labels {

  /** The non-empty lines of `lines`, in their order (reference definition). */
  function NonEmpty(lines: seq<string>): (labels: seq<string>)
    ensures |labels| <= |lines|
    ensures forall j :: 0 <= j < |labels| ==> labels[j] != ""
  {
    if |lines| == 0 then []
    else
      var last := lines[|lines| - 1];
      NonEmpty(lines[..|lines| - 1]) + (if last != "" then [last] else [])
  }

  /** The positions of the non-empty lines, in increasing order. */
  function KeptPositions(lines: seq<string>): seq<nat>
  {
    if |lines| == 0 then []
    else
      KeptPositions(lines[..|lines| - 1]) + (if lines[|lines| - 1] != "" then [|lines| - 1] else [])
  }

  /** The kept positions are increasing and are exactly the positions of non-empty lines. */
  lemma {:induction false} KeptPositionsExact(lines: seq<string>)
    ensures var pos := KeptPositions(lines);
      && (forall j, j' :: 0 <= j < j' < |pos| ==> pos[j] < pos[j'])
      && (forall j :: 0 <= j < |pos| ==> pos[j] < |lines|)
      && (forall p: nat :: p in pos <==> p < |lines| && lines[p] != "")
  {
    if |lines| > 0 {
      var n := |lines| - 1;
      var init := lines[..n];
      KeptPositionsExact(init);
      var pos0 := KeptPositions(init);
      var pos := KeptPositions(lines);
      if lines[n] != "" {
        assert pos == pos0 + [n];
      } else {
        assert pos == pos0;
      }
      forall p: nat | p < n
        ensures lines[p] == init[p]
      {
      }
    }
  }

  /** The j-th label is the line at the j-th kept position. */
  lemma {:induction false} NonEmptySelects(lines: seq<string>)
    ensures var pos := KeptPositions(lines);
      && |pos| == |NonEmpty(lines)|
      && (forall j :: 0 <= j < |pos| ==> pos[j] < |lines| && NonEmpty(lines)[j] == lines[pos[j]])
  {
    if |lines| > 0 {
      var n := |lines| - 1;
      var init := lines[..n];
      NonEmptySelects(init);
      var pos0, labels0 := KeptPositions(init), NonEmpty(init);
      var pos, labels := KeptPositions(lines), NonEmpty(lines);
      assert forall j :: 0 <= j < |pos0| ==> labels0[j] == lines[pos0[j]];
      if lines[n] != "" {
        assert pos == pos0 + [n] && labels == labels0 + [lines[n]];
      } else {
        assert pos == pos0 && labels == labels0;
      }
    }
  }

  /**
   * The labels are exactly the non-empty lines taken in file order: the
   * positions kept are increasing, they are all the non-empty positions,
   * and the j-th label is the line at the j-th kept position.
   */
  lemma NonEmptyKeepsOrder(lines: seq<string>)
    ensures var pos := KeptPositions(lines);
      && |pos| == |NonEmpty(lines)|
      && (forall j, j' :: 0 <= j < j' < |pos| ==> pos[j] < pos[j'])
      && (forall p: nat :: p in pos <==> p < |lines| && lines[p] != "")
      && (forall j :: 0 <= j < |pos| ==> pos[j] < |lines| && NonEmpty(lines)[j] == lines[pos[j]])
  {
    KeptPositionsExact(lines);
    NonEmptySelects(lines);
  }

  /** Filtering distributes over concatenation. */
  lemma {:induction false} NonEmptyConcat(a: seq<string>, b: seq<string>)
    ensures NonEmpty(a + b) == NonEmpty(a) + NonEmpty(b)
  {
    if |b| == 0 {
      assert a + b == a;
    } else {
      var b' := b[..|b| - 1];
      assert (a + b)[..|a + b| - 1] == a + b';
      NonEmptyConcat(a, b');
    }
  }

  /** A label is a line of the file that is not empty, and every such line is a label. */
  lemma {:induction false} NonEmptyMembers(lines: seq<string>, x: string)
    ensures x in NonEmpty(lines) <==> x in lines && x != ""
  {
    if |lines| > 0 {
      var init := lines[..|lines| - 1];
      NonEmptyMembers(init, x);
      assert lines == init + [lines[|lines| - 1]];
    }
  }

  /** Filtering twice is filtering once. */
  lemma {:induction false} NonEmptyIdempotent(lines: seq<string>)
    ensures NonEmpty(NonEmpty(lines)) == NonEmpty(lines)
  {
    if |lines| > 0 {
      var init := lines[..|lines| - 1];
      var last := lines[|lines| - 1];
      NonEmptyIdempotent(init);
      NonEmptyConcat(NonEmpty(init), if last != "" then [last] else []);
    }
  }

  /**
   * `readLabels` over the lines `getline` delivers: a while loop that
   * appends each non-empty line.
   */
  method ReadLabels(lines: seq<string>) returns (labels: seq<string>)
    ensures labels == NonEmpty(lines)
  {
    labels := [];
    var i := 0;
    while i < |lines|
      invariant 0 <= i <= |lines|
      invariant labels == NonEmpty(lines[..i])
    {
      var className := lines[i];
      assert lines[..i + 1][..i] == lines[..i];
      if |className| > 0 {
        labels := labels + [className];
      }
      i := i + 1;
    }
    assert lines[..|lines|] == lines;
  }
}
