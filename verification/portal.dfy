/** The submit-time calculation of the packaging form (app.py:73-118):
    normalise the entered dimensions to centimetres, tile the pallet,
    weigh it, and fit pallets into the selected container. */
module Portal {
  import opened Units
  import opened Geometry
  import opened Packing
  import opened PalletWeight
  import opened Containers

  /** The calculation inputs of one submission: the unit system, box and
      pallet entered on the form, and the container type read after it. */
  datatype Form = Form(
    unitSystem: UnitSystem,
    primary: Dims,
    pallet: Dims,
    primaryWeight: real,
    quantityPrimary: nat,
    container: ContainerType)

  /** The calculated metrics shown after submission. */
  datatype Metrics = Metrics(
    packing: PackingResult,
    secondaryWeight: real,
    fit: FitResult)

  /** Entered dimensions in centimetres: unchanged in Metric mode, each
      extent multiplied by 2.54 in Imperial mode. */
  function ToMetricDims(u: UnitSystem, d: Dims): (m: Dims)
    ensures m.Positive() <==> d.Positive()
    ensures u == Metric ==> m == d
    ensures u == Imperial ==> m == d.Scale(CmPerInch)
  {
    Dims(ToMetricLength(u, d.length), ToMetricLength(u, d.width), ToMetricLength(u, d.height))
  }

  /** The whole submit-time calculation. */
  function Calculate(f: Form): (m: Metrics)
    ensures IsGridPacking(ToMetricDims(f.unitSystem, f.primary), ToMetricDims(f.unitSystem, f.pallet),
                          f.quantityPrimary, m.packing)
    ensures !(f.primary.Positive() && f.pallet.Positive()) ==>
              m.packing == NoPacking && m.secondaryWeight == 0.0
    ensures f.quantityPrimary >= 1 ==> m.packing.quantitySecondary >= m.packing.totalBoxesPerPallet
    ensures m.secondaryWeight > 0.0 <==> m.packing.totalBoxesPerPallet > 0 && f.primaryWeight > 0.0
    ensures BoxesPlusTare(f.unitSystem, f.primaryWeight, m.packing.totalBoxesPerPallet, m.secondaryWeight)
    ensures m.secondaryWeight >= 0.0
    ensures var p, c := ToMetricDims(f.unitSystem, f.pallet), f.container.Interior();
      && (p.length > 0.0 ==> MaxFit(m.fit.rows, p.length, c.length))
      && (p.width > 0.0 ==> MaxFit(m.fit.cols, p.width, c.width))
      && (p.height > 0.0 ==> MaxFit(m.fit.stacks, p.height, c.height))
      && (p.length <= 0.0 ==> m.fit.rows == 0)
      && (p.width <= 0.0 ==> m.fit.cols == 0)
      && (p.height <= 0.0 ==> m.fit.stacks == 0)
    ensures m.fit.utilization == Utilization(ToMetricDims(f.unitSystem, f.pallet).Volume(),
                                             m.fit.palletsPerContainer, f.container.Interior().Volume())
    ensures m.fit.palletsPerContainer == m.fit.rows * m.fit.cols * m.fit.stacks
    ensures m.fit.palletsPerContainer > 0 ==> f.pallet.Positive()
    ensures 0.0 <= m.fit.utilization <= 100.0
  {
    var primary := ToMetricDims(f.unitSystem, f.primary);
    var pallet := ToMetricDims(f.unitSystem, f.pallet);
    var packing := Pack(primary, pallet, f.quantityPrimary);
    var weight := SecondaryWeight(f.unitSystem, f.primaryWeight, packing.totalBoxesPerPallet);
    var fit := Fit(pallet, f.container.Interior());
    Metrics(packing, weight, fit)
  }

  /** The box counts do not depend on the unit system the dimensions
      were entered in: the same numbers give the same counts in inches as
      in centimetres. */
  lemma {:induction false} PackingIndependentOfUnitSystem(f: Form)
    ensures Calculate(f.(unitSystem := Imperial)).packing == Calculate(f.(unitSystem := Metric)).packing
  {
    PackScaleInvariant(f.primary, f.pallet, f.quantityPrimary, CmPerInch);
  }

  /** The metric form describing the same physical load as an Imperial
      form. */
  function MetricEquivalent(f: Form): (g: Form)
    requires f.unitSystem == Imperial
    ensures g.unitSystem == Metric
    ensures g.container == f.container && g.quantityPrimary == f.quantityPrimary
    ensures KgToLb(g.primaryWeight) == f.primaryWeight
    ensures ToMetricDims(Metric, g.primary) == ToMetricDims(Imperial, f.primary)
    ensures ToMetricDims(Metric, g.pallet) == ToMetricDims(Imperial, f.pallet)
  {
    f.(unitSystem := Metric,
       primary := ToMetricDims(Imperial, f.primary),
       pallet := ToMetricDims(Imperial, f.pallet),
       primaryWeight := LbToKg(f.primaryWeight))
  }

  /** Entering a load in inches and pounds gives the same counts, fit and
      utilization as entering it in centimetres and kilograms, and the
      same pallet weight expressed in pounds. */
  lemma {:induction false} SameLoadSameMetrics(f: Form)
    requires f.unitSystem == Imperial
    ensures var m, m' := Calculate(f), Calculate(MetricEquivalent(f));
      && m.packing == m'.packing
      && m.fit == m'.fit
      && m.secondaryWeight == KgToLb(m'.secondaryWeight)
  {
    var g := MetricEquivalent(f);
    var n := Calculate(g).packing.totalBoxesPerPallet;
    assert Calculate(f).packing == Calculate(g).packing;
    SecondaryWeightUnitConsistent(g.primaryWeight, n);
  }

  /** The worked example: a 40 x 30 x 20 cm box of 10 parts on a
      120 x 100 x 150 cm pallet in the 40' standard container. */
  lemma CalculateExample()
    ensures var m := Calculate(Form(Metric, Dims(40.0, 30.0, 20.0), Dims(120.0, 100.0, 150.0), 0.0, 10, Standard40));
      && m.packing == PackingResult(9, 7, 63, 630)
      && m.secondaryWeight == 0.0
      && m.fit.palletsPerContainer == 20
  {
    PackExample();
    FitExample();
  }
}
