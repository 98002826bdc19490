/**
 * A cell of a CSV table as pandas reads it: missing (NaN), text, or a
 * number together with the text Python's `str()` prints for it.
 */
module Cells {
  import opened Text

  datatype Cell = Missing | Text(s: Str) | Number(x: real, repr: Str)

  /** Python `str(cell)`. */
  function Render(c: Cell): Str
  {
    match c
    case Missing => "nan"
    case Text(s) => s
    case Number(_, repr) => repr
  }

  /** Python truthiness: NaN is truthy, the empty string and zero are not. */
  predicate Truthy(c: Cell)
  {
    match c
    case Missing => true
    case Text(s) => s != []
    case Number(x, _) => x != 0.0
  }
}
