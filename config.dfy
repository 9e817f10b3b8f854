/** The process-wide configuration constants of config.py (credentials are not modelled). */
module Config {

  /** The models offered in the model drop-down, in display order. */
  const Models: seq<string> := ["gpt-4-turbo", "gpt-4", "gpt-3.5-turbo"]

  /** The model selected when a session starts: the first of `Models`. */
  const DefaultModel: string := Models[0]

  /** The largest `max_tokens` each known model accepts. */
  const ModelToMaxTokens: map<string, int> :=
    map["gpt-4-turbo" := 4096, "gpt-4" := 8192, "gpt-3.5-turbo" := 4096]

  /** Every model offered in the drop-down has a token ceiling, and every ceiling is at least 4096. */
  lemma TableCoversModels()
    ensures forall i :: 0 <= i < |Models| ==> Models[i] in ModelToMaxTokens
    ensures forall m :: m in ModelToMaxTokens ==> ModelToMaxTokens[m] >= 4096
    ensures DefaultModel == "gpt-4-turbo"
  {
  }
}
