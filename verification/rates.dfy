/** The percentage guard the dashboard writes again and again:
    `whole > 0 ? (part / whole) * 100 : 0`. */
module Rates {

  /** `part` as a percentage of `whole`, and 0 for an empty whole. It lies in
      [0, 100] exactly when the part does not exceed the whole. */
  function Percent(part: nat, whole: nat): (r: real)
    ensures whole == 0 ==> r == 0.0
    ensures whole > 0 ==> r * (whole as real) == (part as real) * 100.0
    ensures r >= 0.0
    ensures whole > 0 ==> (r <= 100.0 <==> part <= whole)
  {
    if whole == 0 then 0.0 else (part as real) / (whole as real) * 100.0
  }
}
