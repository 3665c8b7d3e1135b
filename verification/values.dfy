/** Values shared by the whole model: an optional value (a document field that may be
    absent, a body field the caller may omit) and JavaScript's `||` defaulting. */
module Values {

  /** `None` stands for JavaScript's `undefined` (or a field missing from a document). */
  datatype Option<+T> = None | Some(value: T)

  /** JavaScript's `s || d` for a string that may be absent: `undefined` and the empty
      string are both falsy, so both give the default. */
  function OrDefault(s: Option<string>, d: string): string
  {
    if s.Some? && s.value != "" then s.value else d
  }

  /** A string field is truthy when it is present and not empty. */
  predicate Truthy(s: Option<string>)
  {
    s.Some? && s.value != ""
  }

  /** JavaScript's `n || 0` for a number field that may be absent. */
  function OrZero(n: Option<int>): int
  {
    if n.Some? then n.value else 0
  }

  /** How a template literal prints an optional string: `undefined` when it is absent. */
  function Show(s: Option<string>): string
  {
    if s.Some? then s.value else "undefined"
  }
}
