/** Clients of the operator, showing what callers can conclude from the
    contracts alone in the situations the operator is designed for. */
module Scenarios {
  import opened ColData
  import opened Projection
  import opened SimpleProject

  /** n = 3 and projection [0, 1, 2]: the input itself is planned. */
  method IdentityProjectionIsElided()
  {
    var input := new Upstream();
    var p := new uint32[3];
    p[0], p[1], p[2] := 0, 1, 2;
    assert p[..] == [0, 1, 2];
    var planned := NewSimpleProjectOp(input, 3, p);
    assert planned == Passthrough(input);
  }

  /** n = 3 and projection [2, 0] over columns [A, B, C]: the view shows
      [C, A], and the caller's array can be reused without affecting the
      operator. */
  method ReorderedView()
  {
    var input := new Upstream();
    var a := new Vec(0);
    var b := new Vec(1);
    var c := new Vec(2);
    var batch := new Batch([a, b, c]);
    var p := new uint32[2];
    p[0], p[1] := 2, 0;
    assert p[..] == [2, 0];
    var planned := NewSimpleProjectOp(input, 3, p);
    assert !IsRedundant(3, p[..]);
    var op := planned.op;

    var v := op.Next(batch);
    assert v.Width() == 2;
    assert v.ColVec(0) == c && v.ColVec(1) == a by {
      ProjectAt(batch.cols, v.projection, 0);
      ProjectAt(batch.cols, v.projection, 1);
    }

    // The caller's array is not the operator's.
    p[0] := 1;
    assert op.projection[..] == [2, 0];
  }

  /** Sets up an operator with projection [1] over two-column batches. */
  method SecondColumnOnly() returns (op: SimpleProjectOp)
    ensures fresh(op) && op.Valid() && op.batches == map[]
    ensures op.numInputCols == 2 && op.projection[..] == [1]
  {
    var input := new Upstream();
    var p := new uint32[1];
    p[0] := 1;
    assert p[..] == [1];
    var planned := NewSimpleProjectOp(input, 2, p);
    assert !IsRedundant(2, p[..]);
    op := planned.op;
  }

  /** Pulling the same batch twice returns the same view, and a column
      appended through it in between is still visible. */
  method ReuseKeepsAppendedColumn()
  {
    var op := SecondColumnOnly();
    var a := new Vec(0);
    var b := new Vec(1);
    var batch := new Batch([a, b]);

    var v1 := op.Next(batch);
    v1.AppendCol(7);
    assert v1.Width() == 2;
    assert v1.ColVec(1) == batch.cols[2];

    var v2 := op.Next(batch);
    assert v2 == v1 && v2.Width() == 2;
    assert op.batches.Keys == {batch};
  }

  /** A second batch gets a view of its own, and the first stays cached. */
  method DistinctBatchesGetDistinctViews()
  {
    var op := SecondColumnOnly();
    var a := new Vec(0);
    var b := new Vec(1);
    var first := new Batch([a, b]);
    var second := new Batch([a, b]);

    var v1 := op.Next(first);
    var v2 := op.Next(second);
    assert v2 != v1 && op.batches[first] == v1;
    assert op.batches.Keys == {first, second};
  }

  /** A consumer that pulls the batches of bs in turn and never appends a
      column. Every view it is handed, whether new or reused from the cache
      (a batch may occur in bs more than once), is the view cached for that
      batch and presents exactly the projected columns of the batch just
      pulled. The consumer keeps the fact that every cached view still has
      the operator's projection; a column appended through a view would
      end that. */
  method PullAll(bs: seq<Batch>)
    requires forall j :: 0 <= j < |bs| ==> |bs[j].cols| >= 2
  {
    var op := SecondColumnOnly();
    for n := 0 to |bs|
      invariant op.Valid() && op.numInputCols == 2 && op.projection[..] == [1]
      invariant forall b :: b in op.batches ==> fresh(op.batches[b]) && op.batches[b].projection == [1]
    {
      var v := op.Next(bs[n]);
      assert v == op.batches[bs[n]];
      assert v.Ready() && v.ColVec(0) == bs[n].cols[1] by {
        ProjectAt(bs[n].cols, v.projection, 0);
      }
    }
  }

  /** Projection [0, 0] over columns [A, B]: both output columns are A. */
  method RepeatedIndexAliases()
  {
    var input := new Upstream();
    var a := new Vec(0);
    var b := new Vec(1);
    var batch := new Batch([a, b]);
    var p := new uint32[2];
    p[0], p[1] := 0, 0;
    assert p[..] == [0, 0];
    var planned := NewSimpleProjectOp(input, 2, p);
    assert !IsRedundant(2, p[..]);
    var v := planned.op.Next(batch);
    assert v.Width() == 2;
    assert v.ColVec(0) == a && v.ColVec(1) == a by {
      ProjectAt(batch.cols, v.projection, 0);
      ProjectAt(batch.cols, v.projection, 1);
    }
  }
}
