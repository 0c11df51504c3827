/** The two unit systems of the packaging form and the fixed-factor
    conversions between them (app.py:14-17, 41-43). Lengths are
    normalised to centimetres before any calculation; masses are used in
    the display unit as entered. Floats are modelled as exact reals. */
module Units {

  /** The unit-system radio button; replaces the `startswith` string tests. */
  datatype UnitSystem = Metric | Imperial {

    /** Label shown next to length inputs. */
    function LengthUnit(): string {
      if Metric? then "cm" else "in"
    }

    /** Label shown next to mass inputs. */
    function MassUnit(): string {
      if Metric? then "kg" else "lb"
    }
  }

  /** Centimetres in one inch. */
  const CmPerInch: real := 2.54

  /** Pounds in one kilogram, the fixed factor app.py uses. */
  const LbPerKg: real := 2.20462

  /** `cm_to_in`: the number of inches that together measure `cm`. */
  function CmToIn(cm: real): (inch: real)
    ensures inch * CmPerInch == cm
    ensures inch > 0.0 <==> cm > 0.0
  {
    cm / CmPerInch
  }

  /** `in_to_cm`: converting back with `CmToIn` recovers the inches. */
  function InToCm(inch: real): (cm: real)
    ensures CmToIn(cm) == inch
    ensures cm > 0.0 <==> inch > 0.0
    ensures cm >= 0.0 <==> inch >= 0.0
  {
    inch * CmPerInch
  }

  /** `lb_to_kg`: the number of kilograms that weigh `lb`. */
  function LbToKg(lb: real): (kg: real)
    ensures kg * LbPerKg == lb
    ensures kg > 0.0 <==> lb > 0.0
  {
    lb / LbPerKg
  }

  /** `kg_to_lb`: converting back with `LbToKg` recovers the kilograms. */
  function KgToLb(kg: real): (lb: real)
    ensures LbToKg(lb) == kg
    ensures lb > 0.0 <==> kg > 0.0
  {
    kg * LbPerKg
  }

  /** Over exact reals, cm→in and in→cm undo each other in both orders. */
  lemma LengthRoundTrip(x: real)
    ensures CmToIn(InToCm(x)) == x
    ensures InToCm(CmToIn(x)) == x
  {
  }

  /** Over exact reals, kg→lb and lb→kg undo each other in both orders. */
  lemma MassRoundTrip(x: real)
    ensures KgToLb(LbToKg(x)) == x
    ensures LbToKg(KgToLb(x)) == x
  {
  }

  /** A length entered in the display unit, expressed in centimetres:
      unchanged in Metric mode, converted from inches in Imperial mode. */
  function ToMetricLength(u: UnitSystem, x: real): (cm: real)
    ensures u == Metric ==> cm == x
    ensures u == Imperial ==> CmToIn(cm) == x
    ensures cm > 0.0 <==> x > 0.0
  {
    if u == Imperial then InToCm(x) else x
  }

  /** A mass entered in the display unit, expressed in kilograms. The
      portal never normalises masses; this names what a display-unit mass
      weighs, so that weights computed in either mode can be compared. */
  function ToMetricMass(u: UnitSystem, x: real): (kg: real)
    ensures u == Metric ==> kg == x
    ensures u == Imperial ==> KgToLb(kg) == x
    ensures kg > 0.0 <==> x > 0.0
  {
    if u == Imperial then LbToKg(x) else x
  }
}
