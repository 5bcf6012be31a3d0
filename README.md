# Simple projection operator — a verified Dafny model

This project models `pkg/sql/colexec/simple_project.go` from the CockroachDB vectorized execution engine. The "simple projection" operator removes columns that later operators do not need. It never copies column data. It has three parts:

- **`projectingBatch`** (`SimpleProject.ProjectingBatch`): a view over an underlying batch that shows only the columns its `projection` list names, in that order. `ColVec(i)` returns the underlying batch's column `projection[i]`. `Width()` is the length of the projection. `AppendCol` adds a column to the underlying batch and makes it the view's new last column. `ColVecs` is not supported.
- **`NewSimpleProjectOp`** (`SimpleProject.NewSimpleProjectOp`): when the projection is the identity `[0, 1, ..., numInputCols-1]`, it returns the input operator itself. Otherwise it builds an operator that holds a private copy of the projection, an empty cache and a logging threshold of 128.
- **`simpleProjectOp.Next`** (`SimpleProject.SimpleProjectOp.Next`): it takes the batch pulled from the input and looks it up by object identity in the `batches` cache. On a miss it creates and inserts a view, doubling the threshold when the cache size reaches it. In both cases it then repoints the view at the batch and returns it.

Layout:

- `coldata.dfy` (module `ColData`): a stand-in for the external batch library. A `Batch` is an object holding a `seq` of `Vec` objects. Batches and vectors are compared by identity, as Go map keys on interface pointers are. `AppendCol` adds one fresh vector at the end.
- `projection.dfy` (module `Projection`): what a projection means on values. `Project(cols, p)` is the sequence of columns that `p` selects. `IsRedundant` is the identity test. Go's `uint32` is a newtype, and `ToUint32` is Go's truncating `uint32(...)` conversion.
- `logging_threshold.dfy` (module `LoggingThreshold`): the threshold as a function of the cache size. `ThresholdAt(n)` starts at 128 and doubles while it does not exceed `n`.
- `simple_project.dfy` (module `SimpleProject`): the two classes, `NewSimpleProjectOp`, and the cache invariant with its two step lemmas.
- `scenarios.dfy` (module `Scenarios`): client methods. They show what a caller can prove from the contracts alone: the identity is elided; `[2, 0]` over `[A, B, C]` shows `[C, A]`; repeated pulls reuse one view; an appended column survives later pulls; distinct batches get distinct views; `[0, 0]` aliases one vector twice; the caller's array can be reused; a consumer that pulls any sequence of batches, with repeats, and never appends a column always gets the cached view presenting exactly the projected columns of the batch just pulled.

The operator's object invariant `SimpleProjectOp.Valid()` states four things:

- every projection entry is below the planner-promised `numInputCols`;
- the cache's keys are exactly the distinct batches pulled so far (ghost `seen`);
- distinct keys have distinct views;
- `numBatchesLoggingThreshold == ThresholdAt(|batches|)`, which is always greater than `|batches|`.

`Next` is proved to keep this invariant. `Valid()` says nothing about the cached views' projections, because `AppendCol` through a view lengthens that view's projection for good, and the view keeps it when it is reused. A caller that never appends a column can carry "every cached view has the operator's projection" as its own invariant, as `Scenarios.PullAll` does; with it, `Next` promises that every view, new or reused, presents exactly the projected columns.

The upstream operator is the opaque class `Upstream`. Its `Next` is foreign, so the batch it returns is the `batch` parameter of `SimpleProjectOp.Next`. Because traits are not used, `NewSimpleProjectOp` returns `Planned`, which is either `Passthrough(input)` or `Projected(op)`.

The identity permutation is `projection[i] == i`. The code compares with `uint32(i)`, which wraps for `i >= 2^32`. The model follows the code. `Projection.RedundantIsIdentity` shows that the two agree for every projection of at most 2^32 entries.

## Model

| member | source | states |
|---|---|---|
| `Projection.Project` | pkg/sql/colexec/simple_project.go:38-45 | the columns a projection presents: exactly one per projection entry |
| `Projection.ProjectAt` | pkg/sql/colexec/simple_project.go:56-58 | position i of the projected batch is underlying column `p[i]` |
| `Projection.ProjectWiden` | pkg/sql/colexec/simple_project.go:70-73 | appending columns to the underlying batch leaves every already-projected column unchanged |
| `Projection.ProjectAppend` | pkg/sql/colexec/simple_project.go:70-73 | append rule: a new underlying column plus its index in the projection adds that column as the last projected one |
| `Projection.LastIndexInRange` | pkg/sql/colexec/simple_project.go:72 | `uint32(width) - 1` in uint32 arithmetic names an existing column, and it is the last column whenever the width fits in a uint32 |
| `Projection.RedundantIsIdentity` | pkg/sql/colexec/simple_project.go:81-87 | for projections of at most 2^32 entries, the redundancy test holds if and only if the length is `numInputCols` and entry i is i, for every i |
| `Projection.ElisionPreservesColumns` | pkg/sql/colexec/simple_project.go:75-91 | a redundant projection selects exactly the batch's own columns, so returning the input unchanged is sound |
| `SimpleProject.ProjectingBatch.constructor` | pkg/sql/colexec/simple_project.go:47-54 | `newProjectionBatch`: a view with no batch yet whose projection is a copy of the argument's contents |
| `SimpleProject.ProjectingBatch.ColVec` | pkg/sql/colexec/simple_project.go:56-58 | output column i is element i of the projected columns of the underlying batch; a repeated entry yields the same vector |
| `SimpleProject.ProjectingBatch.ColVecs` | pkg/sql/colexec/simple_project.go:60-64 | always fails with an internal error; it reads no state, so the failure holds in every state |
| `SimpleProject.ProjectingBatch.Width` | pkg/sql/colexec/simple_project.go:66-68 | the length of the view's own projection, whatever the underlying batch's width; `ViewPresentsProjection` ties it to the number of presented columns |
| `SimpleProject.ProjectingBatch.AppendCol` | pkg/sql/colexec/simple_project.go:70-73 | the underlying width and the view's width both grow by one; the new last projection entry is `uint32(new width) - 1`; earlier entries are unchanged; the presented columns gain the new vector at the end |
| `SimpleProject.ProjectionIsRedundant` | pkg/sql/colexec/simple_project.go:81-88 | the loop computes exactly `IsRedundant(numInputCols, projection)` |
| `SimpleProject.NewSimpleProjectOp` | pkg/sql/colexec/simple_project.go:80-101 | returns the input itself if and only if the projection is redundant; otherwise a fresh, valid operator over the same input with an unaliased copy of the projection, an empty cache and threshold 128 |
| `SimpleProject.SimpleProjectOp.constructor` | pkg/sql/colexec/simple_project.go:92-100 | the new operator holds a fresh array equal in contents to the projection, an empty cache and threshold 128, and satisfies `Valid()` |
| `SimpleProject.SimpleProjectOp.Next` | pkg/sql/colexec/simple_project.go:107-122 | keeps `Valid()`; the returned view wraps the pulled batch. On a hit it is the same view object with its projection unchanged and the cache unchanged. On a miss it is a fresh view with the operator's projection, inserted as the single new entry. The threshold doubles exactly when a miss brings the cache size to the old threshold. When the batch has at least `numInputCols` columns and the view is new, or is a reused view whose projection is still the operator's, the view presents exactly `Project(batch.cols, projection)` |
| `SimpleProject.HitKeepsCacheInvariant` | pkg/sql/colexec/simple_project.go:109-110 | pulling a batch already in the cache keeps the cache invariant |
| `SimpleProject.InsertKeepsCacheInvariant` | pkg/sql/colexec/simple_project.go:110-119 | inserting a new view for an unseen batch adds exactly one entry and keeps the invariant, with the threshold doubled when the new size reaches it |
| `SimpleProject.ThresholdShape` | pkg/sql/colexec/simple_project.go:113-118 | the threshold of a valid operator is always 128 * 2^k |
| `LoggingThreshold.GrowExceeds` | pkg/sql/colexec/simple_project.go:113-118 | the threshold always exceeds the cache size (`len(batches) < numBatchesLoggingThreshold`) |
| `LoggingThreshold.GrowShape` | pkg/sql/colexec/simple_project.go:113-118 | the threshold reached from t is t times a power of two |
| `LoggingThreshold.GrowStep` | pkg/sql/colexec/simple_project.go:113-118 | one insertion doubles the threshold exactly when the new size equals it, and leaves it unchanged otherwise |
| `LoggingThreshold.GrowBelowPower` | pkg/sql/colexec/simple_project.go:113-118 | just below size t * 2^k the threshold is exactly t * 2^k |
| `LoggingThreshold.CrossedExactlyAtPowers` | pkg/sql/colexec/simple_project.go:113-118 | the insertion that brings the cache to size n + 1 crosses the threshold (and logs) if and only if n + 1 is 128 * 2^k for some k |

## Left out

- `Init` (lines 103-105) only forwards to the input's `Init`. The upstream operator is foreign, so it is not modelled.
- `log.V(1)` and `log.Infof` (lines 114-116) are observational only. The model keeps the threshold doubling. `CrossedExactlyAtPowers` characterizes the cache sizes at which the log line would be written.
- `context.Context` and the upstream `Next` (line 108): the pulled batch is a parameter of `Next`.
- The `OneInputNode` and `NonExplainable` embeddings and the `var _ Operator` assertion are framework plumbing and are not modelled.
- A `projectingBatch` embeds `coldata.Batch`, so it also forwards the batch's other methods (length, selection vector and so on). Only `ColVec`, `ColVecs`, `Width` and `AppendCol` are modelled. Batch internals, row counts and vector contents are not modelled.
- The underlying batch is always a `ColData.Batch`. In Go it could itself be a `projectingBatch` from an upstream simple projection. Modelling that needs a common batch interface, and traits are not used here.
- `execerror.VectorizedInternalPanic` is modelled as a `Failure(InternalError(...))` result.
- The planner's guarantee that every projection index is `< numInputCols` is not checked by the source. It is a precondition of `NewSimpleProjectOp`. Go's index-out-of-range panics in `ColVec` are preconditions too (`Ready()` and `i < Width()`).
- Integers other than the projection entries are unbounded. Go's 64-bit `int` could overflow when the threshold doubles, but only after about 2^62 cache entries, so this is not modelled.
