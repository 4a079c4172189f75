/** The gateway's error type, restricted to the variants the modelled core
    produces, and the substring test its callers apply to error messages. */
module Errors {

  datatype GatewayError =
    /** Bad or missing configuration read from the environment. */
    | Config(message: string)
    /** The route table refused a listen path; the message names the proxy. */
    | RouterInsert(message: string)

  /** `part` occurs somewhere inside `text` (Rust's `str::contains`). */
  predicate Contains(text: string, part: string) {
    exists i :: 0 <= i <= |text| && part <= text[i..]
  }

  /** A message assembled as prefix + part + suffix contains part. */
  lemma ContainsMiddle(prefix: string, part: string, suffix: string)
    ensures Contains(prefix + part + suffix, part)
  {
    var text := prefix + part + suffix;
    assert part <= text[|prefix|..] by {
      assert text[|prefix|..] == part + suffix;
    }
  }
}
