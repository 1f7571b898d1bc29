/**
 * Strings as the .NET code sees them: a `string` reference may be null,
 * which the model writes as `None`.
 */
module Text {
  import opened Wrappers

  /** A .NET string reference: `None` is null. */
  type NStr = Option<string>

  /** `string.IsNullOrEmpty(s)`. */
  predicate IsNullOrEmpty(s: NStr) {
    s.None? || s.value == ""
  }

  /** `s ?? string.Empty`. */
  function OrEmpty(s: NStr): (r: string)
    ensures s.Some? ==> r == s.value
    ensures s.None? ==> r == ""
  {
    if s.Some? then s.value else ""
  }

  /** `b.ToString().ToUpper()` for a .NET bool ("True"/"False", upper-cased). */
  function UpperBool(b: bool): (r: string)
    ensures r == "TRUE" || r == "FALSE"
    ensures (r == "TRUE") == b
  {
    if b then "TRUE" else "FALSE"
  }
}
