/** The model facade: construction, batch encoding through the tokenizer and
    the inference session, and the single-text entry points. The tokenizer and
    the session are opaque collaborators passed in as functions. */
module Splade {
  import opened Wrappers
  import opened Errors
  import opened Tensors
  import opened Padding
  import opened RuntimePath

  /** Width of every output row: the vocabulary size of the bundled model. */
  const VocabSize: nat := 30522

  /** Batch tokenization: texts and the add-special-tokens flag to one encoding
      per text, or None when tokenization fails. */
  type Tokenizer = (seq<string>, bool) -> Option<seq<TokenEncoding>>

  /** One forward pass of the inference session. Arguments: the flat
      input_ids and attention_mask buffers, the input shape
      [batchSize, maxSeqLength] and the output row width; result: the flat
      sparse_embedding buffer, or the stage that failed. */
  type Session = (seq<int>, seq<int>, nat, nat, nat) -> Result<seq<real>, EngineFault>

  datatype Model = Model(tokenizer: Tokenizer, session: Session)

  /** Builds a model: load the tokenizer, point the runtime at the selected
      library path and initialize it, then create the session. Each stage's
      failure stops construction with that stage's error. */
  function NewModel(
    opts: seq<ModelOption>,
    env: map<string, string>,
    loadedTokenizer: Option<Tokenizer>,
    initializeEnvironment: Option<string> -> bool,
    createdSession: Option<Session>
  ): (r: Result<Model, Error>)
    ensures loadedTokenizer.None? ==> r.Err? && r.error == TokenizerLoadFailed
    ensures loadedTokenizer.Some? && !initializeEnvironment(LibraryPath(opts, env)) ==>
              r.Err? && r.error == EnvironmentInitFailed
    ensures loadedTokenizer.Some? && initializeEnvironment(LibraryPath(opts, env)) && createdSession.None? ==>
              r.Err? && r.error == SessionCreateFailed
    ensures r.Ok? <==>
              loadedTokenizer.Some? && initializeEnvironment(LibraryPath(opts, env)) && createdSession.Some?
    ensures r.Ok? ==> r.value == Model(loadedTokenizer.value, createdSession.value)
  {
    var runtimePath := ApplyOptions("", opts);
    if loadedTokenizer.None? then Err(TokenizerLoadFailed)
    else if !initializeEnvironment(SharedLibraryPath(runtimePath, env)) then Err(EnvironmentInitFailed)
    else if createdSession.None? then Err(SessionCreateFailed)
    else Ok(Model(loadedTokenizer.value, createdSession.value))
  }

  /** The session's forward pass over the padded batch. */
  function Forward(m: Model, encs: seq<TokenEncoding>): Result<seq<real>, EngineFault> {
    m.session(PaddedIds(encs), PaddedMask(encs), |encs|, MaxLen(encs), VocabSize)
  }

  /** Encodes a tokenized batch: pad it, run the session once, check the
      output size and split the output into one row per item. The rows are
      the session's output, in batch order, cut into VocabSize pieces. */
  function ComputeBatchFromEncodings(m: Model, encs: seq<TokenEncoding>): (r: Result<seq<seq<real>>, Error>)
    ensures Forward(m, encs).Err? ==> r == Err(EngineFailed(Forward(m, encs).error))
    ensures Forward(m, encs).Ok? && |Forward(m, encs).value| != |encs| * VocabSize ==>
              r == Err(OutputSizeMismatch(|Forward(m, encs).value|, |encs| * VocabSize))
    ensures r.Ok? <==> Forward(m, encs).Ok? && |Forward(m, encs).value| == |encs| * VocabSize
    ensures r.Ok? ==> |r.value| == |encs| && Rectangular(r.value, VocabSize)
    ensures r.Ok? ==> Forward(m, encs) == Ok(Flatten(r.value))
  {
    match Forward(m, encs)
    case Err(fault) => Err(EngineFailed(fault))
    case Ok(flat) => Reshape(flat, |encs|, VocabSize)
  }

  /** Row b, entry k of a successful batch is cell b * VocabSize + k of the
      session's output. */
  lemma BatchRowCell(m: Model, encs: seq<TokenEncoding>, b: nat, k: nat)
    requires ComputeBatchFromEncodings(m, encs).Ok?
    requires b < |encs| && k < VocabSize
    ensures b * VocabSize + k < |Forward(m, encs).value|
    ensures ComputeBatchFromEncodings(m, encs).value[b][k] == Forward(m, encs).value[b * VocabSize + k]
  {
    ReshapeCell(Forward(m, encs).value, |encs|, VocabSize, b, k);
  }

  /** Encodes a batch of texts. An empty batch yields the empty result without
      tokenizing or running anything; otherwise a tokenizer failure is
      reported as such and the encodings go through the batch pipeline. */
  function ComputeBatch(m: Model, sentences: seq<string>, addSpecialTokens: bool): (r: Result<seq<seq<real>>, Error>)
    ensures |sentences| == 0 ==> r == Ok([])
    ensures |sentences| > 0 && m.tokenizer(sentences, addSpecialTokens).None? ==> r == Err(TokenizationFailed)
    ensures |sentences| > 0 && m.tokenizer(sentences, addSpecialTokens).Some? ==>
              r == ComputeBatchFromEncodings(m, m.tokenizer(sentences, addSpecialTokens).value)
    ensures r.Ok? ==> Rectangular(r.value, VocabSize)
  {
    if |sentences| == 0 then Ok([])
    else
      match m.tokenizer(sentences, addSpecialTokens)
      case None => Err(TokenizationFailed)
      case Some(encs) => ComputeBatchFromEncodings(m, encs)
  }

  /** Queries are encoded with special tokens. */
  function EncodeQuery(m: Model, queries: seq<string>): Result<seq<seq<real>>, Error> {
    ComputeBatch(m, queries, true)
  }

  /** Documents are encoded exactly like queries. */
  function EncodeDocument(m: Model, documents: seq<string>): Result<seq<seq<real>>, Error> {
    ComputeBatch(m, documents, true)
  }

  /** Encodes one text as a batch of one and returns its row; a batch result
      without rows gives the empty vector, standing for Go's nil slice. */
  function Compute(m: Model, sentence: string, addSpecialTokens: bool): (r: Result<seq<real>, Error>)
    ensures r.Ok? ==> r.value == [] || |r.value| == VocabSize
    ensures ComputeBatch(m, [sentence], addSpecialTokens).Err? ==>
              r == Err(ComputeBatch(m, [sentence], addSpecialTokens).error)
    ensures ComputeBatch(m, [sentence], addSpecialTokens).Ok? ==>
              r.Ok? && (var rows := ComputeBatch(m, [sentence], addSpecialTokens).value;
                        if |rows| == 0 then r.value == [] else r.value == rows[0])
  {
    match ComputeBatch(m, [sentence], addSpecialTokens)
    case Err(e) => Err(e)
    case Ok(rows) => if |rows| == 0 then Ok([]) else Ok(rows[0])
  }

  /** Encodes one already tokenized text. The session sees the item without
      padding, and on success the result is the whole session output. */
  function ComputeFromEncoding(m: Model, e: TokenEncoding): (r: Result<seq<real>, Error>)
    ensures r.Ok? ==> |r.value| == VocabSize
    ensures r.Ok? <==>
              (var out := m.session(e.ids, e.attentionMask[..|e.ids|], 1, |e.ids|, VocabSize);
               out.Ok? && |out.value| == VocabSize)
    ensures r.Ok? ==> m.session(e.ids, e.attentionMask[..|e.ids|], 1, |e.ids|, VocabSize) == Ok(r.value)
    ensures r.Err? ==> ComputeBatchFromEncodings(m, [e]).Err? && r.error == ComputeBatchFromEncodings(m, [e]).error
  {
    SingleItemUnpadded(e);
    match ComputeBatchFromEncodings(m, [e])
    case Err(err) => Err(err)
    case Ok(rows) =>
      assert Flatten(rows) == Flatten(rows[..0]) + rows[0];
      Ok(rows[0])
  }
}
