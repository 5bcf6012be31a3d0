/** The value-level meaning of a simple projection: which columns of an
    underlying batch a projection list selects, and in what order. */
module Projection {

  /** Go's uint32. */
  newtype uint32 = x: int | 0 <= x < 0x1_0000_0000

  const Uint32Modulus: int := 0x1_0000_0000

  /** Go's conversion uint32(i) of an int: keeps the low 32 bits, which is the
      Euclidean remainder modulo 2^32 (also for negative i). */
  function ToUint32(i: int): uint32
  {
    (i % Uint32Modulus) as uint32
  }

  /** Every entry of p names an existing column of cols. */
  predicate InRange<T>(cols: seq<T>, p: seq<uint32>)
  {
    forall i :: 0 <= i < |p| ==> p[i] as int < |cols|
  }

  /** The columns a projection list p selects from cols, in the order of p.
      A repeated entry selects the same column at several positions. */
  function Project<T>(cols: seq<T>, p: seq<uint32>): (r: seq<T>)
    requires InRange(cols, p)
    ensures |r| == |p|
    decreases |p|
  {
    if p == [] then []
    else
      Project(cols, p[..|p| - 1]) + [cols[p[|p| - 1]]]
  }

  /** Position i of the projected batch is column p[i] of the underlying one. */
  lemma {:induction false} ProjectAt<T>(cols: seq<T>, p: seq<uint32>, i: int)
    requires InRange(cols, p)
    requires 0 <= i < |p|
    ensures Project(cols, p)[i] == cols[p[i]]
    decreases |p|
  {
    if i < |p| - 1 {
      var q := p[..|p| - 1];
      assert q[i] == p[i];
      ProjectAt(cols, q, i);
    }
  }

  /** Two sequences of equal length agreeing with cols[p[i]] at every i are
      equal; stated once here so that the lemmas below stay short. */
  lemma ProjectExt<T>(cols: seq<T>, p: seq<uint32>, r: seq<T>)
    requires InRange(cols, p)
    requires |r| == |p|
    requires forall i :: 0 <= i < |p| ==> r[i] == cols[p[i]]
    ensures Project(cols, p) == r
  {
    forall i | 0 <= i < |p| ensures Project(cols, p)[i] == r[i] {
      ProjectAt(cols, p, i);
    }
  }

  /** Columns added after the last selected one do not change the projection. */
  lemma ProjectWiden<T>(cols: seq<T>, extra: seq<T>, p: seq<uint32>)
    requires InRange(cols, p)
    ensures InRange(cols + extra, p)
    ensures Project(cols + extra, p) == Project(cols, p)
  {
  }

  /** The append rule: adding a column v to the underlying batch and its index
      to the projection adds v as the last projected column. */
  lemma ProjectAppend<T>(cols: seq<T>, p: seq<uint32>, v: T, k: uint32)
    requires InRange(cols, p)
    requires k as int == |cols|
    ensures InRange(cols + [v], p + [k])
    ensures Project(cols + [v], p + [k]) == Project(cols, p) + [v]
  {
    ProjectWiden(cols, [v], p);
    assert (p + [k])[..|p|] == p;
  }

  /** NewSimpleProjectOp's identity test: the projection is redundant when it has numInputCols
      entries and entry i equals uint32(i). */
  predicate IsRedundant(numInputCols: int, p: seq<uint32>)
  {
    numInputCols == |p| && forall i :: 0 <= i < |p| ==> p[i] == ToUint32(i)
  }

  /** For projections no longer than the uint32 range, the redundancy test
      recognises exactly the identity permutation [0, 1, ..., n-1]. */
  lemma RedundantIsIdentity(numInputCols: int, p: seq<uint32>)
    requires |p| <= Uint32Modulus
    ensures IsRedundant(numInputCols, p) <==>
              numInputCols == |p| && forall i :: 0 <= i < |p| ==> p[i] as int == i
  {
  }

  /** Eliding the operator is sound: projecting a batch of n columns with a
      projection that is redundant for n yields exactly the batch's columns. */
  lemma ElisionPreservesColumns<T>(cols: seq<T>, p: seq<uint32>)
    requires |cols| <= Uint32Modulus
    requires IsRedundant(|cols|, p)
    ensures InRange(cols, p)
    ensures Project(cols, p) == cols
  {
    RedundantIsIdentity(|cols|, p);
    ProjectExt(cols, p, cols);
  }

  /** Go's uint32(w) - 1 for the new width w >= 1 of a batch: it names an
      existing column, and it is the last one whenever w fits in a uint32. */
  lemma LastIndexInRange(w: int)
    requires w >= 1
    ensures ToUint32(ToUint32(w) as int - 1) as int < w
    ensures w <= Uint32Modulus ==> ToUint32(ToUint32(w) as int - 1) as int == w - 1
  {
  }
}
