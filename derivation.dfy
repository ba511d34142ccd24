/**
  Derivation of a dependent dimension (softbin or number) from the bin of the
  same name, as the allocator's examples fix it: the algorithm `:bbb000` places
  the bin in front of three zeros, `:bx` places it in front of one increment
  digit, and a callback maps the bin to any value it likes.
*/
module Derivation {
  import opened Wrappers

  datatype Scheme = Bbb000 | Bx | Callback(f: int -> int)

  /** The scheme an algorithm tag names, if the model knows it. */
  function SchemeOf(tag: string): Option<Scheme> {
    if tag == "bbb000" then Some(Bbb000)
    else if tag == "bx" then Some(Bx)
    else None
  }

  /** The increments `:bx` can append: the ten values of its single `x` digit. */
  const Increments: seq<int> := [0, 1, 2, 3, 4, 5, 6, 7, 8, 9]

  /**
    The derived value for `bin`, and for `Bx` the increment `inc` handed out
    for this bin: `:bbb000` keeps the bin recoverable and its last three digits
    zero, `:bx` stays inside the bin's own block of ten, and a callback answers
    for itself.
  */
  function Compose(scheme: Scheme, bin: int, inc: int): (r: int)
    ensures scheme.Bbb000? ==> r / 1000 == bin && r % 1000 == 0
    ensures scheme.Bx? && 0 <= inc < 10 ==> 10 * bin <= r < 10 * bin + 10
    ensures scheme.Callback? ==> r == scheme.f(bin)
  {
    match scheme
    case Bbb000 => bin * 1000
    case Bx => bin * 10 + inc
    case Callback(f) => f(bin)
  }

  /** `:bx` keeps both the bin and the increment recoverable, so distinct increments of one bin never collide. */
  lemma BxDecodes(bin: int, inc: int)
    requires 0 <= inc < 10
    ensures Compose(Bx, bin, inc) / 10 == bin && Compose(Bx, bin, inc) % 10 == inc
  {
  }

  lemma IncrementsAreDigits(inc: int)
    ensures inc in Increments <==> 0 <= inc < 10
  {
  }
}
