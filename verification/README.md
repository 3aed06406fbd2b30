# splade-go batch encoding core, modelled in Dafny

This project models the core of the SPLADE sparse encoder in `splade/model.go`:
turning a batch of variable-length token encodings into two right-padded,
row-major `[batchSize, maxSeqLength]` input buffers (`input_ids` and
`attention_mask`), running one forward pass of the inference session, checking
that the flat `sparse_embedding` output has `batchSize * vocabSize` elements,
and cutting it into one vocabulary-sized row per input. It also models the
similarity scorer (pairwise dot products between query and document
embeddings), the thin entry points around the batch pipeline (`ComputeBatch`,
`Compute`, `ComputeFromEncoding`, and `EncodeQuery`/`EncodeDocument`, which are both `ComputeBatch(texts, true)`) and the way
`NewModel` chooses the native runtime library path.

Modules, one per component:

- `Tensors` (tensors.dfy): row-major buffers. `Flatten` concatenates rows;
  `Reshape` checks the element count and splits a flat buffer into rows.
- `Padding` (padding.dfy): the batch tensor builder. `MaxLen`, the padded
  buffers `PaddedIds`/`PaddedMask`, and the loop-based `BuildInputs`.
- `Scoring` (scoring.dfy): `Dot`, the loop `DotProduct` and the nested-loop
  `Similarity`.
- `RuntimePath` (runtime_path.dfy): option application and the
  option-over-environment precedence for the runtime library path.
- `Splade` (splade.dfy): the model facade. The tokenizer and the inference
  session are function-valued fields of `Model`. Construction stages are
  parameters of `NewModel`.
- `Wrappers`, `Errors`: `Option`/`Result` and the error values.

Boundaries. The tokenizer is a function from texts and the add-special-tokens
flag to encodings (or failure). The inference session is one function from
the two flat input buffers, the input shape and the output width to a flat
output buffer (or the failing stage). It stands for the input tensor creation,
the output tensor allocation, `Run` and `GetData`. Being functions, both are
deterministic: encoding the same texts twice gives the same result. Weights
are exact `real`s. The vocabulary width 30522 is the constant `VocabSize`;
`Reshape` and the layout lemmas take the width as a parameter.

The cell `(b, i)` of a `[rows, width]` buffer is at offset `b * width + i`.
Index properties are stated one cell at a time, by lemmas whose parameters are
`b` and `i`. That holds for every cell and keeps each proof small.

## Model

| member | source | states |
|---|---|---|
| Padding.MaxLen | splade/model.go:127-133 | the running maximum is at least the id length of every item and equals one of them, and it is 0 for an empty batch |
| Padding.MaxSeqLength | splade/model.go:127-133 | the source's first loop, which keeps a running maximum starting at 0, computes MaxLen |
| Padding.PadRow | splade/model.go:144-153 | one batch row written cell by cell has maxSeqLength cells, starts with the item's ids and mask entries, and is 0 in both buffers after the item's length |
| Padding.BuildInputs | splade/model.go:137-154 | the loops compute maxSeqLength as MaxLen and build exactly the buffers PaddedIds/PaddedMask, whose cells PaddedCell describes |
| Padding.PaddedLength | splade/model.go:140-141 | both buffers hold exactly batchSize * maxSeqLength cells |
| Padding.PaddedCell | splade/model.go:143-152 | every written offset b * maxSeqLength + i is inside both buffers; below the item's length it holds the item's id and mask entry, and from there on 0 in both buffers (right padding only) |
| Padding.SingleItemUnpadded | splade/model.go:127-154 | a one-item batch gets no padding: maxSeqLength is the item's length, the id buffer is its ids and the mask buffer its mask over those ids |
| Tensors.FlattenLength | splade/model.go:140-141 | a rectangular [n, width] matrix laid out row-major has n * width cells |
| Tensors.FlattenCell | splade/model.go:143-147 | in the row-major layout, cell (b, i) sits at offset b * width + i |
| Tensors.RowsInvertFlatten | splade/model.go:190-196 | the copied rows have batchSize rows of vocabSize cells and, concatenated, give back the flat output |
| Tensors.Reshape | splade/model.go:183-196 | fails with the got/expected counts exactly when the output does not have batchSize * vocabSize elements; otherwise gives batchSize rows of vocabSize cells that concatenate, in batch order, to the output |
| Tensors.ReshapeCell | splade/model.go:191-195 | entry k of row i is the output's element i * vocabSize + k |
| Tensors.FlattenThenReshape | splade/model.go:185-196 | reshaping a row-major [n, width] matrix gives back exactly its rows |
| Scoring.DotProduct | splade/model.go:228-234 | the accumulation loop computes the sum of a[k] * b[k] over the positions of a |
| Scoring.DotZero | splade/model.go:228-234 | an all-zero first vector scores 0 |
| Scoring.DotNonNegative | splade/model.go:228-234 | non-negative weights give a non-negative score |
| Scoring.DotReadsPrefix | splade/model.go:230-232 | the sum runs over len(a) only: entries of b beyond len(a) do not change the score |
| Scoring.DotSymmetric | splade/model.go:228-234 | for vectors of equal length the score is symmetric |
| Scoring.DotLinear | splade/model.go:228-234 | the score is linear in the first vector |
| Scoring.Similarity | splade/model.go:212-225 | the matrix has one row per query and one entry per document, and entry (i, j) is the dot product of query i and document j |
| RuntimePath.ApplyOptions | splade/model.go:29-40 | options are applied in order onto the runtime path, so the last WithRuntimePath wins |
| RuntimePath.LibraryPath | splade/model.go:48-55 | a non-empty explicit path is used whatever the environment says; otherwise ONNXRUNTIME_LIB_PATH is used when set (even if empty); otherwise no path is set |
| Splade.NewModel | splade/model.go:35-74 | a tokenizer load failure, a runtime initialization failure (with the selected path) and a session creation failure each stop construction with their own error, in that order; construction succeeds exactly when all three stages do, and then holds the loaded tokenizer and the created session |
| Splade.ComputeBatchFromEncodings | splade/model.go:124-199 | a session failure is passed on; an output of the wrong size fails with the got/expected counts; the call succeeds exactly when the session succeeds with batchSize * vocabSize elements, and then has one row of vocabSize per item, and those rows concatenate to the session's output on the padded batch |
| Splade.BatchRowCell | splade/model.go:190-196 | entry k of row b of a successful batch is element b * vocabSize + k of the session output |
| Splade.ComputeBatch | splade/model.go:104-122 | an empty batch returns an empty result for any tokenizer and session; a tokenizer failure is reported as such; otherwise the encodings go through the batch pipeline |
| Splade.Compute | splade/model.go:85-94 | returns row 0 of the one-text batch, the empty vector when that batch has no rows, and the batch's error otherwise |
| Splade.ComputeFromEncoding | splade/model.go:96-102 | the session sees the single item without padding; the call succeeds exactly when the session output has vocabSize elements, and then returns that output; on failure it returns the batch call's error unchanged |

## Left out

- Tokenization (`m.tk.EncodeBatch`, splade/model.go:109-120, and `spladego/tokenizer.go`) wraps an external library. It is a function parameter returning encodings, so its decode round trip is not modelled.
- The native runtime calls (`ort.NewTensor`, `ort.NewEmptyTensor`, `session.Run`, `GetData`, `Destroy`, `InitializeEnvironment`, `SetSharedLibraryPath`) are foreign code. The session is one function parameter; initialization is a predicate on the selected path.
- `Close` (splade/model.go:77-83) only calls foreign teardown and keeps no state, so it has nothing to model. The code has no idempotence flag and no invalid-state error, so neither is claimed here.
- float32 arithmetic: weights are exact reals, so rounding in the dot product is not modelled (linearity and symmetry hold only for exact arithmetic).
- Machine integers: `batchSize * maxSeqLength` and the `int` to `int64` conversions cannot overflow in the model.
- The embedded assets (splade/model.go:14-18), the Python export and demo scripts and the example program have no logic of their own.
- Concurrency: the source has no locking, and the model is sequential.
- RuntimePath.LibraryPath: the runtime library path and the environment are process-wide state shared by all `NewModel` calls; when no path is selected, whatever an earlier call set stays in effect, which the model does not track.
- A mask shorter than its ids makes the source index out of range. The subset type `TokenEncoding` rules that input out.
- `Scoring.Similarity` requires every query to be no longer than every document. `dotProduct` indexes the document at every position of the query and panics otherwise; the code has no dimension-mismatch error.
- The source's second empty check in `ComputeBatch` (splade/model.go:114-116) can never fire after the first one, so it is not modelled separately.
- Padding.BuildInputs appends cells in row-major order rather than writing into a zero-filled buffer. The source writes every offset exactly once in that same order, so the two give the same buffer; `Padding.PaddedCell` states the offsets.
