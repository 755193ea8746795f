/** The credential guard of the setup screen (components/SetupScreen.tsx). */
module Setup {
  import opened Wrappers
  import opened Text

  /**
   * `handleSubmit`: the key handed on to `onApiKeySubmit`, or None when the
   * trimmed key is empty and nothing is handed on.
   */
  function HandleSubmit(key: string): (r: Option<string>)
    ensures r.Some? <==> exists i :: 0 <= i < |key| && !IsWhitespace(key[i])
    ensures r.Some? ==> r.value == Trim(key)
    ensures r.Some? ==> r.value != "" && !IsWhitespace(r.value[0]) && !IsWhitespace(r.value[|r.value| - 1])
    ensures r.Some? ==> Trim(r.value) == r.value
  {
    BlankIffAllWhitespace(key);
    TrimEnds(key);
    TrimIdempotent(key);
    if Trim(key) != "" then Some(Trim(key)) else None
  }
}
