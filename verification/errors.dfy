/** The errors the encoder can return, one per failing stage. */
module Errors {

  /** A failure reported by the inference engine boundary. */
  datatype EngineFault =
    | InputIdsTensorFailed       // creating the input_ids tensor failed
    | AttentionMaskTensorFailed  // creating the attention_mask tensor failed
    | OutputTensorFailed         // allocating the empty output tensor failed
    | SessionRunFailed           // the forward pass reported an error

  datatype Error =
    | TokenizerLoadFailed
    | EnvironmentInitFailed
    | SessionCreateFailed
    | TokenizationFailed
    | EngineFailed(fault: EngineFault)
    | OutputSizeMismatch(got: nat, expected: nat)
}
