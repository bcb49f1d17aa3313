/**
 * The parts of the plugin framework's vocabulary the handlers use:
 * diagnostics and configuration values that may be null or unknown.
 */
module Framework {

  /** An entry of `resp.Diagnostics`. */
  datatype Diagnostic =
    | Error(summary: string, detail: string)
    | Warning(summary: string, detail: string)
    | AttributeError(attribute: string, summary: string, detail: string)
  {
    predicate IsError() {
      Error? || AttributeError?
    }
  }

  /** `Diagnostics.HasError()`. */
  predicate HasError(diagnostics: seq<Diagnostic>) {
    exists i :: 0 <= i < |diagnostics| && diagnostics[i].IsError()
  }

  /** A configuration value: null, unknown (not yet computed), or known. */
  datatype Value<T> = Null | Unknown | Known(value: T)

  /** `ValueString()`: the string, or `""` when null or unknown. */
  function ValueString(v: Value<string>): string {
    if v.Known? then v.value else ""
  }
}
