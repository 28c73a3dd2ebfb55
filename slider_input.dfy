/**
 * The particle-count input shared by the Twiss and least-squares pages:
 * `N = DEFAULTS.N`, and when the page has an N input,
 * `N = Math.max(1, parseInt(input.value, 10) || DEFAULTS.N)`.
 */
module SliderInput {
  /** What the page offers: no N input at all, an input `parseInt` reads as NaN, or an integer. */
  datatype CountInput = Absent | Unparsable | Parsed(value: int)

  function Count(input: CountInput, default: int): (n: int)
    requires default >= 1
    ensures n >= 1
    ensures input.Parsed? && input.value >= 1 ==> n == input.value
    ensures input.Parsed? && input.value < 0 ==> n == 1
    ensures !input.Parsed? || input.value == 0 ==> n == default
  {
    match input
    case Absent => default
    case Unparsable => if 1 < default then default else 1
    case Parsed(v) =>
      var parsedOrDefault := if v == 0 then default else v;  // `0 || d` is d
      if 1 < parsedOrDefault then parsedOrDefault else 1
  }

  /** Reset writes `DEFAULTS.N` into the N input only when the page has one. */
  function ResetCount(input: CountInput, default: int): (r: CountInput)
    requires default >= 1
    ensures r.Absent? <==> input.Absent?
    ensures Count(r, default) == default
  {
    if input.Absent? then Absent else Parsed(default)
  }
}
