/** The simple projection operator (pkg/sql/colexec/simple_project.go): it
    removes the columns later operators do not need by wrapping each batch
    pulled from its input in a view that exposes only the projected columns,
    reusing one view per physical batch. */
module SimpleProject {
  import opened ColData
  import opened Projection
  import opened LoggingThreshold

  datatype Error = InternalError(msg: string)

  datatype Result<T> = Success(value: T) | Failure(error: Error)

  /** The upstream operator. Its Init and Next are not modelled: the batch
      its Next returns is a parameter of SimpleProjectOp.Next. */
  class Upstream {
    constructor ()
    {
    }
  }

  /** projectingBatch: a view over an underlying batch that exposes only the
      columns listed in its own projection, in that order. */
  class ProjectingBatch {
    /** The embedded coldata.Batch; nil until the operator first repoints it. */
    var batch: Batch?
    var projection: seq<uint32>

    /** newProjectionBatch: a view with a copy of projection and no batch yet. */
    constructor (projection: array<uint32>)
      ensures batch == null
      ensures this.projection == projection[..]
    {
      batch := null;
      this.projection := projection[..];
    }

    /** The view wraps a batch that has every column its projection names. */
    ghost predicate Ready()
      reads this, batch
    {
      batch != null && InRange(batch.cols, projection)
    }

    /** The columns the view presents. */
    ghost function Contents(): seq<Vec>
      reads this, batch
      requires Ready()
    {
      Project(batch.cols, projection)
    }

    /** Output column i is the underlying batch's column projection[i]; a
        repeated projection entry yields the same vector at both positions. */
    function ColVec(i: int): (v: Vec)
      reads this, batch
      requires Ready()
      requires 0 <= i < |projection|
      ensures v == Contents()[i]
    {
      ProjectAt(batch.cols, projection, i);
      batch.ColVec(projection[i] as int)
    }

    /** ColVecs is not supported by a view: it fails in every state. */
    function ColVecs(): (r: Result<seq<Vec>>)
      ensures r.Failure? && r.error.InternalError?
    {
      Failure(InternalError("projectingBatch doesn't support ColVecs()"))
    }

    /** The width of the view is the length of its projection, whatever the
        width of the underlying batch. */
    function Width(): nat
      reads this
    {
      |projection|
    }

    /** Appends a column of type t to the underlying batch and makes it
        visible as the view's new last column. The new projection entry is
        Go's uint32(width) - 1, computed in uint32 arithmetic. */
    method AppendCol(t: ColType)
      requires batch != null
      modifies this`projection, batch`cols
      ensures batch == old(batch)
      ensures |batch.cols| == |old(batch.cols)| + 1
      ensures batch.cols[..|old(batch.cols)|] == old(batch.cols)
      ensures fresh(batch.cols[|old(batch.cols)|]) && batch.cols[|old(batch.cols)|].typ == t
      ensures projection == old(projection) + [ToUint32(ToUint32(|batch.cols|) as int - 1)]
      ensures old(Ready()) ==> Ready()
      ensures old(Ready()) && |batch.cols| <= Uint32Modulus ==>
                projection[|projection| - 1] as int == |batch.cols| - 1 &&
                Contents() == old(Contents()) + [batch.cols[|batch.cols| - 1]] &&
                ColVec(old(Width())) == batch.cols[|batch.cols| - 1]
    {
      ghost var before := batch.cols;
      batch.AppendCol(t);
      var last := ToUint32(ToUint32(batch.Width()) as int - 1);
      LastIndexInRange(|batch.cols|);
      if InRange(before, projection) {
        ProjectWiden(before, [batch.cols[|before|]], projection);
        assert batch.cols == before + [batch.cols[|before|]];
        if |batch.cols| <= Uint32Modulus {
          ProjectAppend(before, projection, batch.cols[|before|], last);
        }
      }
      projection := projection + [last];
    }
  }

  /** The selection and width properties of a view, restated in terms of the
      underlying batch: it presents exactly Width() columns, and output
      column i is the underlying batch's ColVec(projection[i]). This is a
      convenience that follows from ColVec's ensures, Project's length and
      ProjectAt; it adds no fact of its own. */
  lemma ViewPresentsProjection(v: ProjectingBatch)
    requires v.Ready()
    ensures v.Width() == |v.Contents()|
    ensures forall i :: 0 <= i < v.Width() ==> v.ColVec(i) == v.batch.ColVec(v.projection[i] as int)
  {
  }

  /** What NewSimpleProjectOp plans: the input itself, or a projection
      operator over it. */
  datatype Planned = Passthrough(input: Upstream) | Projected(op: SimpleProjectOp)

  /** The invariant of the operator's cache, on values: the cache has one
      entry per distinct batch identity pulled so far, each with a view of its
      own; the logging threshold is determined by the cache size alone, and
      always exceeds it. */
  ghost predicate CacheInvariant(batches: map<Batch, ProjectingBatch>, seen: seq<Batch>,
                                 threshold: int)
  {
    && batches.Keys == (set b | b in seen)
    && (forall b1, b2 :: b1 in batches && b2 in batches && b1 != b2 ==> batches[b1] != batches[b2])
    && threshold == ThresholdAt(|batches|)
    && |batches| < threshold
  }

  /** A hit leaves the cache and the threshold as they were. */
  lemma HitKeepsCacheInvariant(batches: map<Batch, ProjectingBatch>, seen: seq<Batch>,
                               threshold: int, batch: Batch)
    requires CacheInvariant(batches, seen, threshold)
    requires batch in batches
    ensures CacheInvariant(batches, seen + [batch], threshold)
  {
  }

  /** A miss inserts a new view; the threshold doubles exactly when the new
      size equals the old threshold. */
  lemma InsertKeepsCacheInvariant(batches: map<Batch, ProjectingBatch>, seen: seq<Batch>,
                                  threshold: int, batch: Batch, view: ProjectingBatch)
    requires CacheInvariant(batches, seen, threshold)
    requires batch !in batches && view !in batches.Values
    ensures |batches[batch := view]| == |batches| + 1
    ensures CacheInvariant(batches[batch := view], seen + [batch],
                           if |batches| + 1 == threshold then threshold * 2 else threshold)
  {
    assert (set b | b in seen + [batch]) == (set b | b in seen) + {batch};
    var n := |batches|;
    assert |batches[batch := view]| == n + 1;
    GrowStep(InitialThreshold, n);
    GrowExceeds(InitialThreshold, n + 1);
  }

  /** simpleProjectOp: pulls batches from its input and returns, for each
      physical batch, one cached view repointed at that batch. */
  class SimpleProjectOp {
    const input: Upstream
    const projection: array<uint32>
    /** The views built so far, keyed by batch identity. */
    var batches: map<Batch, ProjectingBatch>
    /** The cache size at which the next diagnostic is logged. */
    var numBatchesLoggingThreshold: int

    /** The input width the planner promises; the operator never checks it. */
    ghost const numInputCols: int
    /** Every batch pulled so far, in order. */
    ghost var seen: seq<Batch>

    ghost predicate Valid()
      reads this, projection
    {
      && (forall i :: 0 <= i < projection.Length ==> projection[i] as int < numInputCols)
      && CacheInvariant(batches, seen, numBatchesLoggingThreshold)
    }

    /** The operator NewSimpleProjectOp allocates: a private copy of projection, an empty
        cache and a threshold of 128. */
    constructor (input: Upstream, numInputCols: int, projection: array<uint32>)
      requires forall i :: 0 <= i < projection.Length ==> projection[i] as int < numInputCols
      ensures Valid()
      ensures this.input == input && this.numInputCols == numInputCols
      ensures fresh(this.projection) && this.projection[..] == projection[..]
      ensures batches == map[] && numBatchesLoggingThreshold == 128
      ensures seen == []
    {
      this.input := input;
      var copy := new uint32[projection.Length];
      forall i | 0 <= i < projection.Length {
        copy[i] := projection[i];
      }
      this.projection := copy;
      this.numInputCols := numInputCols;
      batches := map[];
      numBatchesLoggingThreshold := 128;
      seen := [];
      new;
      assert copy[..] == projection[..];
    }

    /** Pulls batch from the input, finds or creates its view, repoints the
        view at batch and returns it. */
    method Next(batch: Batch) returns (view: ProjectingBatch)
      requires Valid()
      modifies this, if batch in batches then {batches[batch]} else {}
      ensures Valid()
      ensures seen == old(seen) + [batch]
      ensures view.batch == batch
      ensures batch in old(batches) ==>
                && view == old(batches[batch])
                && batches == old(batches)
                && view.projection == old(view.projection)
      ensures batch !in old(batches) ==>
                && fresh(view)
                && batches == old(batches)[batch := view]
                && view.projection == projection[..]
      ensures numBatchesLoggingThreshold ==
                if batch !in old(batches) && |batches| == old(numBatchesLoggingThreshold)
                then 2 * old(numBatchesLoggingThreshold)
                else old(numBatchesLoggingThreshold)
      ensures (batch !in old(batches) || old(batches[batch].projection) == projection[..]) &&
              |batch.cols| >= numInputCols ==>
                view.Ready() && view.Contents() == Project(batch.cols, projection[..])
    {
      if batch in batches {
        HitKeepsCacheInvariant(batches, seen, numBatchesLoggingThreshold, batch);
        view := batches[batch];
        view.batch := batch;
      } else {
        view := new ProjectingBatch(projection);
        view.batch := batch;
        InsertKeepsCacheInvariant(batches, seen, numBatchesLoggingThreshold, batch, view);
        batches := batches[batch := view];
        if |batches| == numBatchesLoggingThreshold {
          numBatchesLoggingThreshold := numBatchesLoggingThreshold * 2;
        }
      }
      seen := seen + [batch];
    }
  }

  /** The operator's logging threshold is always 128 * 2^k. */
  lemma ThresholdShape(op: SimpleProjectOp) returns (k: nat)
    requires op.Valid()
    ensures op.numBatchesLoggingThreshold == InitialThreshold * Pow2(k)
  {
    k := GrowShape(InitialThreshold, |op.batches|);
  }

  /** NewSimpleProjectOp's identity check: the projection is redundant exactly
      when it has numInputCols entries and entry i equals uint32(i). */
  method ProjectionIsRedundant(numInputCols: int, projection: array<uint32>) returns (redundant: bool)
    ensures redundant == IsRedundant(numInputCols, projection[..])
  {
    redundant := false;
    if numInputCols == projection.Length {
      redundant := true;
      for i := 0 to projection.Length
        invariant redundant == forall j :: 0 <= j < i ==> projection[j] == ToUint32(j)
      {
        if projection[i] != ToUint32(i) {
          redundant := false;
        }
      }
    }
  }

  /** NewSimpleProjectOp: returns input itself when the projection is
      redundant, and otherwise a fresh operator with a private copy of the
      projection, an empty cache and a logging threshold of 128. */
  method NewSimpleProjectOp(input: Upstream, numInputCols: int, projection: array<uint32>)
    returns (planned: Planned)
    requires forall i :: 0 <= i < projection.Length ==> projection[i] as int < numInputCols
    ensures planned.Passthrough? <==> IsRedundant(numInputCols, projection[..])
    ensures planned.Passthrough? ==> planned.input == input
    ensures planned.Projected? ==>
              && fresh(planned.op)
              && fresh(planned.op.projection)
              && planned.op.Valid()
              && planned.op.input == input
              && planned.op.numInputCols == numInputCols
              && planned.op.projection[..] == projection[..]
              && planned.op.batches == map[]
              && planned.op.numBatchesLoggingThreshold == 128
  {
    var redundant := ProjectionIsRedundant(numInputCols, projection);
    if redundant {
      return Passthrough(input);
    }
    var s := new SimpleProjectOp(input, numInputCols, projection);
    return Projected(s);
  }
}
