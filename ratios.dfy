/** The guarded divisions of the dashboard: a zero denominator gives zero, never an error. */
module Ratios {

  /** `(num / den) if den else 0`, exactly. */
  function Ratio(num: int, den: int): (r: real)
    ensures den == 0 ==> r == 0.0
    ensures den != 0 ==> r * den as real == num as real
  {
    if den == 0 then 0.0 else num as real / den as real
  }

  /** `(num / den * 100) if den else 0`: `num` as a percentage of `den`. */
  function Percent(num: int, den: int): (r: real)
    ensures den == 0 ==> r == 0.0
    ensures den != 0 ==> r * den as real == 100.0 * num as real
  {
    Ratio(num, den) * 100.0
  }

  /** Shares of one whole add up: num1 and num2 as percentages of den add up to their sum as a percentage. */
  lemma PercentAdds(num1: int, num2: int, den: int)
    ensures Percent(num1, den) + Percent(num2, den) == Percent(num1 + num2, den)
  {
    if den != 0 {
      var d := den as real;
      assert Percent(num1, den) == 100.0 * num1 as real / d;
      assert Percent(num2, den) == 100.0 * num2 as real / d;
      assert Percent(num1 + num2, den) == 100.0 * (num1 + num2) as real / d;
    }
  }
}
