# Packaging Portal — submit-time calculation

The Supplier Packaging Portal is a single-page form. A supplier enters a
primary box (length, width, depth, weight, parts per box) and a pallet
load (length, width, height) in Metric (cm/kg) or Imperial (in/lb) units.
On submit the portal does the following:

- it converts the dimensions to centimetres;
- it tiles the pallet with boxes in an axis-aligned grid (boxes per
  layer, layers, boxes per pallet, parts per pallet);
- it weighs the loaded pallet, adding a 25 lb empty-pallet tare, in the
  display mass unit;
- it shows a container drop-down, and counts how many pallets fit into
  the selected container's interior and the percentage of its volume they
  fill.

This project models that calculation as pure Dafny functions over exact
reals, in these modules:

- `Units`: the four conversion functions and the unit system;
- `Geometry`: box extents and Python's `//` on a positive divisor, as
  `FloorDiv`;
- `Packing`: pallet tiling;
- `PalletWeight`: the loaded-pallet weight;
- `Containers`: the container catalogue and the pallet fit;
- `Portal`: the whole submit handler, as `Calculate`.

Every calculation is proved against an independent description: the
maximal-count characterisation `MaxFit` of floor division, the grid-packing
predicate `IsGridPacking`, volume bounds, and unit-system consistency.

## Model

| member | source | states |
|---|---|---|
| Units.CmToIn | app.py:14 | the inch value times 2.54 gives back the centimetres; positive exactly when the input is |
| Units.InToCm | app.py:15 | converting the result back with cm→in gives the inches; the sign is kept |
| Units.KgToLb | app.py:16 | converting the result back with lb→kg gives the kilograms; the sign is kept |
| Units.LbToKg | app.py:17 | the kilogram value times 2.20462 gives back the pounds; the sign is kept |
| Units.LengthRoundTrip | app.py:14-15 | cm→in and in→cm undo each other in both orders |
| Units.MassRoundTrip | app.py:16-17 | kg→lb and lb→kg undo each other in both orders |
| Units.ToMetricLength | app.py:75-84 | Metric lengths pass through unchanged; Imperial ones convert so that cm→in returns the entered value; positivity is kept |
| Portal.ToMetricDims | app.py:75-84 | the normalised box is positive exactly when the entered one is; unchanged in Metric mode; every extent scaled by 2.54 in Imperial mode |
| Geometry.FloorDiv | app.py:88-89 | the quotient is the largest count of divisor-sized items that fit the space (q·b ≤ a < (q+1)·b); non-negative for a non-negative space |
| Geometry.FloorBracket | app.py:88-89 | the floor of a/b brackets a between consecutive multiples of b |
| Geometry.MaxFitUnique | app.py:88-89 | at most one count is maximal on an axis, so that characterisation pins the `//` result |
| Geometry.FloorDivMonotone | app.py:88-89 | more space never gives a smaller floor quotient |
| Geometry.FloorDivAntitone | app.py:88-89 | a larger item never gives a larger floor quotient |
| Geometry.FloorDivScale | app.py:75-89 | scaling space and item by the same positive factor leaves the floor quotient unchanged |
| Geometry.GridVolumeFits | app.py:87-91 | a grid whose rows fit on every axis occupies at most the volume of the space |
| Packing.Pack | app.py:87-93 | the counts satisfy the grid-packing description; all zero unless all six extents are positive; total = per layer × layers; parts = total × parts per box; the boxes' volume is at most the pallet's |
| Packing.GridPackingUnique | app.py:87-93 | any result meeting the grid-packing description is the one computed |
| Packing.PackMonotoneInPallet | app.py:87-93 | a pallet at least as large on every axis never holds fewer boxes |
| Packing.PackAntitoneInPrimary | app.py:87-93 | a box at least as large on every axis never fits more of itself onto the pallet |
| Packing.PackScaleInvariant | app.py:75-93 | scaling box and pallet by the same positive factor leaves every count unchanged |
| Packing.PackExample | app.py:87-93 | a 40×30×20 box of 10 parts on a 120×100×150 pallet: 9 per layer, 7 layers, 63 boxes, 630 parts |
| PalletWeight.Tare | app.py:96-99 | the tare is positive and, in either unit system, weighs 25 lb |
| PalletWeight.SecondaryWeight | app.py:96-101 | positive exactly when there are boxes and they weigh something; then it is the boxes' weight plus the tare and exceeds the tare; otherwise 0 |
| PalletWeight.SecondaryWeightUnitConsistent | app.py:96-101 | entering the box weight in pounds gives the metric pallet weight converted to pounds |
| PalletWeight.SecondaryWeightMonotone | app.py:98-101 | more boxes never make the pallet lighter |
| Containers.ContainerType.Interior | app.py:105-109 | every catalogued interior has positive extents |
| Containers.Lookup | app.py:104-110 | a name resolves to a container exactly when it is that container's display name; any other name is the missing-key error |
| Containers.CatalogueComplete | app.py:104-110 | every container type is offered, and every offered name resolves to its own type |
| Containers.CountAlong | app.py:114-116 | zero for a non-positive pallet extent; otherwise the most pallets that fit along that axis |
| Containers.Fit | app.py:111-118 | rows, columns and stacks are each maximal on their axis (0 for a non-positive extent); pallets = their product; the pallets' volume is at most the container's; utilization is the pallets' share of the container volume, in 0..100, and 0 for no pallets |
| Containers.Utilization | app.py:118 | 0 for a container of no volume; otherwise the share times the container volume is 100 times the pallets' volume |
| Containers.FitBounds | app.py:111-117 | a non-zero pallet count needs a positive pallet, and the counted pallets fit the container volume |
| Containers.UtilizationBounds | app.py:118 | a volume share of at most the whole is a percentage between 0 and 100 |
| Containers.FitMonotoneInContainer | app.py:114-117 | a container at least as large on every axis never holds fewer rows, columns, stacks or pallets |
| Containers.HighCubeHoldsAtLeastStandard | app.py:106-117 | the 40' High Cube holds at least as many pallets of any size as the 40' Standard |
| Containers.FullUtilization | app.py:111-118 | utilization is exactly 100 if and only if the pallets tile the container with no gap on any axis |
| Containers.FullGrid | app.py:111-118 | the same equivalence, stated over the counts of a fit |
| Containers.GridShare | app.py:111-118 | the same equivalence, stated over plain extents and counts |
| Containers.ShareOfWhole | app.py:118 | a sub-box no larger on any axis takes 100 percent of a box's volume exactly when it equals the box |
| Containers.StrictProduct | app.py:118 | a product of bounded non-negative factors reaches the product of the bounds only when every factor does |
| Containers.FitExample | app.py:106-118 | a 120×100×150 pallet in the 40' Standard: 10 rows, 2 columns, 1 stack, 20 pallets, 36,000,000/67,398,000 of the volume |
| Portal.Calculate | app.py:73-118 | the counts satisfy the grid-packing description of the normalised dimensions; no counts and no weight unless both boxes are positive; parts per pallet ≥ boxes per pallet when a box holds at least one part; weight never negative, positive exactly when there are weighted boxes, and then boxes' weight plus tare; rows, columns and stacks maximal along each axis of the normalised pallet in the selected container's interior (0 for a non-positive extent); pallets = their product; utilization is that pallet volume's share of the interior, in 0..100; pallets fit only a positive pallet |
| Portal.PackingIndependentOfUnitSystem | app.py:75-93 | the same numbers entered as inches or as centimetres give the same box counts |
| Portal.MetricEquivalent | app.py:75-84 | the metric form of an Imperial entry: same normalised dimensions, weight converted to kilograms, same container and parts per box |
| Portal.SameLoadSameMetrics | app.py:73-118 | one physical load entered in Imperial or in Metric units gives the same counts, fit and utilization, and the same pallet weight expressed in pounds |
| Portal.CalculateExample | app.py:73-118 | the worked example: 9 per layer, 7 layers, 63 boxes, 630 parts, weight 0 for weightless boxes, 20 pallets in the 40' Standard |

## Left out

- The form widgets, headings and metric display (app.py:1-70, 120-128) are UI. The widgets' lower bounds (min 0 for dimensions and weight, min 1 for parts per box) are not assumed: the calculation is modelled for all inputs.
- The two-decimal rounding of the displayed weight and utilization (app.py:126-128) is formatting only.
- Session state and the submissions dashboard (app.py:9-11, 130 onwards) are storage and display, not calculation.
- Numbers are exact reals, not IEEE-754 doubles. The conversions and Python's float `//` can round in the last place; for example `int(1.0 // 0.1)` is 9 in Python, where the exact quotient gives 10. No model over reals can show this.
- The container is an enumeration. The drop-down offers only the catalogue's names, so the `KeyError` of a foreign name cannot occur there; `Containers.Lookup` models it as `None`.
- Parts per container, stacking-load checks, sustainability scores and cost estimates are not computed by app.py, so they are not modelled.
- The box weight is never converted. The pallet weight is in the display mass unit, with the tare in that unit, rather than in kilograms. The model follows the code here.
- Container utilization can never exceed 100 percent over exact reals, because the counts are floors. `Containers.Fit` proves the bound rather than allowing overflow.
- Units.UnitSystem.LengthUnit and Units.UnitSystem.MassUnit (app.py:42-43) are unit labels for display, and their contracts are omitted.
- Containers.Fit: requires non-negative container extents, which app.py never checks. The only containers it sees are catalogue interiors, and `ContainerType.Interior` proves each of those positive.
- The container type is a free input of `Portal.Calculate`. In app.py it is not part of the form, which closes at app.py:70: the drop-down is read at app.py:104, inside the submitted branch. By Streamlit's rerun model, changing it reruns the script with the form not submitted, so the calculation may in practice only ever see the default "40' Standard". The model covers every choice, which includes that one.
