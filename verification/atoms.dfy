/**
 * The scalar Python values this client passes around: query-parameter values,
 * ids formatted into endpoints, and leaf values of an XML request body.
 */
module Atoms {
  import opened Strings

  datatype Atom = Str(s: string) | Int(i: int) | Bool(b: bool)

  /** Python's `str(a)` (and `"{0}".format(a)`, which agrees with it on these types). */
  function Render(a: Atom): (r: string) {
    match a
    case Str(s) => s
    case Int(i) => IntToString(i)
    case Bool(b) => if b then "True" else "False"
  }
}
