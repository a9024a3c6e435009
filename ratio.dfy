/** Facts about the ratio of two counts, used wherever the source divides a count by a total. */
module Ratio {

  /** A count divided by a larger positive count lies in [0, 1], multiplies back, and is 1 exactly for the whole. */
  lemma FractionInUnit(part: nat, whole: nat)
    requires part <= whole && whole > 0
    ensures 0.0 <= part as real / whole as real <= 1.0
    ensures (part as real / whole as real) * whole as real == part as real
    ensures part as real / whole as real == 1.0 <==> part == whole
    ensures part as real / whole as real == 0.0 <==> part == 0
  {
  }

  /** The same facts for any count, when it does not exceed the total. */
  lemma FractionOfWhole(part: nat, whole: nat)
    requires whole > 0
    ensures part <= whole ==> 0.0 <= part as real / whole as real <= 1.0
    ensures part == whole ==> part as real / whole as real == 1.0
  {
    if part <= whole {
      FractionInUnit(part, whole);
    }
  }
}
