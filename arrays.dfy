/** The two-dimensional numeric arrays that carry a data split from the
    transformation step to the model trainer.

    A row is the transformed features of one record followed by its encoded
    label in the last column: rows are assembled with `np.c_[features, labels]`
    and split back with `array[:, :-1]` and `array[:, -1]`. */
module Arrays {
  import opened Errors

  /** A numpy array of shape (|rows|, width). */
  datatype Matrix = Matrix(rows: seq<seq<real>>, width: nat)

  ghost predicate Rectangular(m: Matrix) {
    forall i :: 0 <= i < |m.rows| ==> |m.rows[i]| == m.width
  }

  /** numpy arrays are always rectangular. */
  type Array2 = m: Matrix | Rectangular(m) witness Matrix([], 0)

  /** `np.c_[features, labels]`: appends `labels` as a new last column.
      numpy refuses operands whose row counts differ. */
  function AppendColumn(features: Array2, labels: seq<real>): (r: Result<Array2>)
    ensures r.Ok? <==> |features.rows| == |labels|
    ensures r.Ok? ==> r.value.width == features.width + 1 && |r.value.rows| == |labels|
    ensures r.Ok? ==> forall i :: 0 <= i < |labels| ==> r.value.rows[i] == features.rows[i] + [labels[i]]
  {
    if |features.rows| != |labels| then
      Result<Array2>.Err(Failure("all the input array dimensions except for the concatenation axis must match exactly"))
    else
      var rows := seq(|labels|, i requires 0 <= i < |labels| => features.rows[i] + [labels[i]]);
      Ok(Matrix(rows, features.width + 1))
  }

  /** `array[:, :-1]`: every row without its last column. On an array with no
      columns this is again an array with no columns. */
  function DropLastColumn(m: Array2): (r: Array2)
    ensures |r.rows| == |m.rows|
    ensures m.width > 0 ==> r.width == m.width - 1
    ensures forall i :: 0 <= i < |m.rows| ==> r.rows[i] <= m.rows[i]
  {
    if m.width == 0 then m
    else Matrix(seq(|m.rows|, i requires 0 <= i < |m.rows| => m.rows[i][..m.width - 1]), m.width - 1)
  }

  /** `array[:, -1]`: the last column; an IndexError when there is none. */
  function LastColumn(m: Array2): (r: Result<seq<real>>)
    ensures r.Ok? <==> m.width > 0
    ensures r.Ok? ==> |r.value| == |m.rows|
    ensures r.Ok? ==> forall i :: 0 <= i < |m.rows| ==> r.value[i] == m.rows[i][m.width - 1]
  {
    if m.width == 0 then Err(Failure("index -1 is out of bounds for axis 1 with size 0"))
    else Ok(seq(|m.rows|, i requires 0 <= i < |m.rows| => m.rows[i][m.width - 1]))
  }

  /** The `X, y` pair the trainer takes from one array: features and label. */
  function SplitFeaturesLabel(m: Array2): (r: Result<(Array2, seq<real>)>)
    ensures r.Ok? <==> m.width > 0
    ensures r.Ok? ==> |r.value.0.rows| == |r.value.1| == |m.rows| && r.value.0.width + 1 == m.width
  {
    var y :- LastColumn(m);
    Ok((DropLastColumn(m), y))
  }

  /** Splitting an assembled array gives back the features and the labels it
      was assembled from. */
  lemma {:induction false} SplitAfterAppend(features: Array2, labels: seq<real>)
    requires |features.rows| == |labels|
    ensures SplitFeaturesLabel(AppendColumn(features, labels).value) == Ok((features, labels))
  {
    var m := AppendColumn(features, labels).value;
    var x := DropLastColumn(m);
    assert |x.rows| == |features.rows|;
    forall i | 0 <= i < |features.rows|
      ensures x.rows[i] == features.rows[i]
    {
      assert m.rows[i] == features.rows[i] + [labels[i]];
      assert x.rows[i] == m.rows[i][..features.width];
    }
    assert x == features;
    var y := LastColumn(m).value;
    forall i | 0 <= i < |labels|
      ensures y[i] == labels[i]
    {
      assert m.rows[i] == features.rows[i] + [labels[i]];
    }
    assert y == labels;
  }

  /** Appending the split-off label column again rebuilds the array. */
  lemma {:induction false} AppendAfterSplit(m: Array2)
    requires m.width > 0
    ensures var (x, y) := SplitFeaturesLabel(m).value; AppendColumn(x, y) == Ok(m)
  {
    var (x, y) := SplitFeaturesLabel(m).value;
    var a := AppendColumn(x, y).value;
    forall i | 0 <= i < |m.rows|
      ensures a.rows[i] == m.rows[i]
    {
      assert a.rows[i] == m.rows[i][..m.width - 1] + [m.rows[i][m.width - 1]];
    }
    assert a.rows == m.rows;
  }
}
