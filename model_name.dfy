/**
 * The model-name normalisation of `get_llm`: the configured model name is
 * routed through the OpenAI-compatible provider by giving it an `openai/`
 * prefix, unless it already has one or is unset or empty.
 */
module ModelName {
  import opened Wrappers
  import opened PyStr

  const ProviderPrefix: string := "openai/"

  /** The name is already routed through the OpenAI-compatible provider. */
  predicate Routed(name: string) {
    StartsWith(name, ProviderPrefix)
  }

  /**
   * `if model_name and not model_name.startswith("openai/")`: prefix the name;
   * otherwise (None, empty, already prefixed) keep it as it is.
   */
  function Normalize(name: Option<string>): (r: Option<string>)
    ensures r.None? <==> name.None?
    ensures r.Some? && r.value != [] ==> Routed(r.value)
    ensures r.Some? ==> |r.value| >= |name.value| && r.value[|r.value| - |name.value|..] == name.value
    ensures r == name <==> (name.None? || name.value == [] || Routed(name.value))
    ensures r != name ==> r.value == ProviderPrefix + name.value
  {
    match name
    case None => None
    case Some(s) =>
      if s != [] && !Routed(s) then Some(ProviderPrefix + s) else name
  }

  /** Normalising an already normalised name changes nothing. */
  lemma NormalizeIdempotent(name: Option<string>)
    ensures Normalize(Normalize(name)) == Normalize(name)
  {
    if name.Some? && name.value != [] && !Routed(name.value) {
      assert (ProviderPrefix + name.value)[..|ProviderPrefix|] == ProviderPrefix;
    }
  }
}
