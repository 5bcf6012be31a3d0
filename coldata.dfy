/** A stand-in for the columnar batch library the operator consumes
    (coldata.Batch, coldata.Vec, coltypes.T). Only the boundary the operator
    relies on is modelled: a batch is an object (compared by identity) holding
    an ordered sequence of column vectors, and AppendCol adds one fresh vector
    at the end. Row counts, selection vectors and vector contents are not
    modelled. */
module ColData {

  /** coltypes.T: an integer enumeration of column types, kept opaque. */
  type ColType = int

  /** A column vector; only its identity and its type are modelled. */
  class Vec {
    const typ: ColType

    constructor (typ: ColType)
      ensures this.typ == typ
    {
      this.typ := typ;
    }
  }

  /** A column batch. Identity matters: two batches are the same only when
      they are the same object. */
  class Batch {
    var cols: seq<Vec>

    constructor (cols: seq<Vec>)
      ensures this.cols == cols
    {
      this.cols := cols;
    }

    function Width(): nat
      reads this
    {
      |cols|
    }

    function ColVec(i: int): Vec
      reads this
      requires 0 <= i < |cols|
    {
      cols[i]
    }

    /** Appends a new, freshly allocated vector of type t as the last column. */
    method AppendCol(t: ColType)
      modifies this`cols
      ensures |cols| == |old(cols)| + 1
      ensures cols[..|old(cols)|] == old(cols)
      ensures fresh(cols[|old(cols)|]) && cols[|old(cols)|].typ == t
    {
      var v := new Vec(t);
      cols := cols + [v];
    }
  }
}
