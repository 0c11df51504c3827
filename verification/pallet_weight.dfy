/** Loaded pallet weight (app.py:95-101): the weight of the boxes on the
    pallet plus the fixed empty-pallet tare, in the display mass unit. */
module PalletWeight {
  import opened Units
  import Geometry

  /** The empty pallet weighs 25 lb. */
  const EmptyPalletLb: real := 25.0

  /** The empty-pallet tare in the display mass unit: 25 in Imperial mode,
      25 lb converted to kilograms in Metric mode. */
  function Tare(u: UnitSystem): (t: real)
    ensures t > 0.0
    ensures ToMetricMass(u, t) == LbToKg(EmptyPalletLb)
  {
    if u == Imperial then EmptyPalletLb else LbToKg(EmptyPalletLb)
  }

  /** A non-zero pallet weight `w` is the weight of `totalBoxes` boxes
      of `primaryWeight` each, plus the tare. */
  predicate BoxesPlusTare(u: UnitSystem, primaryWeight: real, totalBoxes: int, w: real) {
    w > 0.0 ==> w - Tare(u) == primaryWeight * totalBoxes as real
  }

  /** Weight of one loaded pallet, from the weight of one primary box (in
      the display unit, never converted) and the boxes per pallet. A pallet
      with no boxes, or boxes of no weight, is reported as 0. */
  function SecondaryWeight(u: UnitSystem, primaryWeight: real, totalBoxes: int): (w: real)
    ensures w >= 0.0
    ensures w > 0.0 <==> totalBoxes > 0 && primaryWeight > 0.0
    ensures BoxesPlusTare(u, primaryWeight, totalBoxes, w)
    ensures w > 0.0 ==> w > Tare(u)
  {
    if totalBoxes > 0 && primaryWeight > 0.0 then
      Geometry.MulStrictRight(0.0, primaryWeight, totalBoxes as real);
      primaryWeight * totalBoxes as real + Tare(u)
    else
      0.0
  }

  /** The same physical load gives the same weight in either unit system:
      entering the box weight in pounds yields the metric result expressed
      in pounds. */
  lemma {:induction false} SecondaryWeightUnitConsistent(primaryWeightKg: real, totalBoxes: int)
    ensures SecondaryWeight(Imperial, KgToLb(primaryWeightKg), totalBoxes)
         == KgToLb(SecondaryWeight(Metric, primaryWeightKg, totalBoxes))
  {
    if totalBoxes > 0 && primaryWeightKg > 0.0 {
      var n := totalBoxes as real;
      assert KgToLb(primaryWeightKg) * n == KgToLb(primaryWeightKg * n);
      assert KgToLb(LbToKg(EmptyPalletLb)) == EmptyPalletLb;
    }
  }

  /** More boxes on the pallet never make it lighter. */
  lemma {:induction false} SecondaryWeightMonotone(u: UnitSystem, primaryWeight: real, totalBoxes: int, moreBoxes: int)
    requires totalBoxes <= moreBoxes
    ensures SecondaryWeight(u, primaryWeight, totalBoxes) <= SecondaryWeight(u, primaryWeight, moreBoxes)
  {
    if totalBoxes > 0 && primaryWeight > 0.0 {
      Geometry.MulLeRight(totalBoxes as real, moreBoxes as real, primaryWeight);
    }
  }
}
