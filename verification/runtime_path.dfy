/** Where NewModel points the inference runtime for its native library: an
    explicit WithRuntimePath option first, then the ONNXRUNTIME_LIB_PATH
    environment variable, otherwise no path is set by this construction. */
module RuntimePath {
  import opened Wrappers

  const RuntimeEnvVar: string := "ONNXRUNTIME_LIB_PATH"

  /** The one option the constructor accepts. */
  datatype ModelOption = WithRuntimePath(path: string)

  /** Applies the options in the order given to a runtime path; each option
      overwrites it, so the last option wins. */
  function ApplyOptions(path: string, opts: seq<ModelOption>): (r: string)
    ensures |opts| == 0 ==> r == path
    ensures |opts| > 0 ==> r == opts[|opts| - 1].path
    decreases |opts|
  {
    if |opts| == 0 then path else ApplyOptions(opts[0].path, opts[1..])
  }

  /** The path passed to the runtime for a configured runtime path and an
      environment, or None when this construction sets no path. The empty
      configured path counts as unset; an empty environment value does not. */
  function SharedLibraryPath(runtimePath: string, env: map<string, string>): Option<string> {
    if runtimePath != "" then Some(runtimePath)
    else if RuntimeEnvVar in env then Some(env[RuntimeEnvVar])
    else None
  }

  /** The path NewModel selects, applying the options to a fresh model whose
      runtime path starts empty: a non-empty path from the last option beats
      the environment; with no such path the environment variable is used
      when it is set, and otherwise no path is selected. */
  function LibraryPath(opts: seq<ModelOption>, env: map<string, string>): (r: Option<string>)
    ensures |opts| > 0 && opts[|opts| - 1].path != "" ==> r == Some(opts[|opts| - 1].path)
    ensures (|opts| == 0 || opts[|opts| - 1].path == "") && RuntimeEnvVar in env ==>
              r == Some(env[RuntimeEnvVar])
    ensures r.None? <==> (|opts| == 0 || opts[|opts| - 1].path == "") && RuntimeEnvVar !in env
  {
    SharedLibraryPath(ApplyOptions("", opts), env)
  }
}
