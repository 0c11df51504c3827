/** Pallet grid tiling (app.py:86-93): how many primary boxes one pallet
    load holds when boxes are laid out in an axis-aligned grid with no
    rotation. */
module Packing {
  import opened Geometry

  /** The four counts the portal shows for one pallet. */
  datatype PackingResult = PackingResult(
    boxesPerLayer: nat,
    layers: nat,
    totalBoxesPerPallet: nat,
    quantitySecondary: nat)

  /** The result when some dimension is missing or not positive. */
  const NoPacking := PackingResult(0, 0, 0, 0)

  /** Independent description of a grid packing: when all six dimensions
      are positive, a layer holds the most boxes that fit along the pallet
      length times the most that fit across its width, the layers are the
      most boxes that stack within its height, and the totals multiply;
      otherwise every count is zero. */
  ghost predicate IsGridPacking(primary: Dims, pallet: Dims, quantityPrimary: nat, p: PackingResult) {
    if primary.Positive() && pallet.Positive() then
      && (exists n: int, m: int ::
            && MaxFit(n, primary.length, pallet.length)
            && MaxFit(m, primary.width, pallet.width)
            && p.boxesPerLayer == n * m)
      && MaxFit(p.layers, primary.height, pallet.height)
      && p.totalBoxesPerPallet == p.boxesPerLayer * p.layers
      && p.quantitySecondary == p.totalBoxesPerPallet * quantityPrimary
    else
      p == NoPacking
  }

  /** The packing calculation for metric primary and pallet dimensions
      and the number of parts in one primary box. */
  function Pack(primary: Dims, pallet: Dims, quantityPrimary: nat): (p: PackingResult)
    ensures IsGridPacking(primary, pallet, quantityPrimary, p)
    ensures !(primary.Positive() && pallet.Positive()) ==> p == NoPacking
    ensures p.totalBoxesPerPallet == p.boxesPerLayer * p.layers
    ensures p.quantitySecondary == p.totalBoxesPerPallet * quantityPrimary
    ensures quantityPrimary >= 1 ==> p.quantitySecondary >= p.totalBoxesPerPallet
    ensures primary.Positive() && pallet.Positive() ==>
              p.totalBoxesPerPallet as real * primary.Volume() <= pallet.Volume()
  {
    if primary.Positive() && pallet.Positive() then
      var along := FloorDiv(pallet.length, primary.length);
      var across := FloorDiv(pallet.width, primary.width);
      var layers := FloorDiv(pallet.height, primary.height);
      assert MaxFit(along, primary.length, pallet.length);
      assert MaxFit(across, primary.width, pallet.width);
      GridVolumeFits(along, across, layers, primary, pallet);
      PackingResult(along * across, layers, along * across * layers, along * across * layers * quantityPrimary)
    else
      NoPacking
  }

  /** The grid description admits exactly one result: the one `Pack`
      computes. */
  lemma {:induction false} GridPackingUnique(primary: Dims, pallet: Dims, quantityPrimary: nat, p: PackingResult)
    requires IsGridPacking(primary, pallet, quantityPrimary, p)
    ensures p == Pack(primary, pallet, quantityPrimary)
  {
    if primary.Positive() && pallet.Positive() {
      var n: int, m: int :|
        && MaxFit(n, primary.length, pallet.length)
        && MaxFit(m, primary.width, pallet.width)
        && p.boxesPerLayer == n * m;
      MaxFitUnique(n, FloorDiv(pallet.length, primary.length), primary.length, pallet.length);
      MaxFitUnique(m, FloorDiv(pallet.width, primary.width), primary.width, pallet.width);
      MaxFitUnique(p.layers, FloorDiv(pallet.height, primary.height), primary.height, pallet.height);
    }
  }

  /** A larger pallet, everything else fixed, never holds fewer boxes. */
  lemma {:induction false} PackMonotoneInPallet(primary: Dims, pallet: Dims, larger: Dims, quantityPrimary: nat)
    requires pallet.Within(larger)
    ensures var p, p' := Pack(primary, pallet, quantityPrimary), Pack(primary, larger, quantityPrimary);
      && p.boxesPerLayer <= p'.boxesPerLayer
      && p.layers <= p'.layers
      && p.totalBoxesPerPallet <= p'.totalBoxesPerPallet
      && p.quantitySecondary <= p'.quantitySecondary
  {
    if primary.Positive() && pallet.Positive() {
      var n, n' := FloorDiv(pallet.length, primary.length), FloorDiv(larger.length, primary.length);
      var m, m' := FloorDiv(pallet.width, primary.width), FloorDiv(larger.width, primary.width);
      var l, l' := FloorDiv(pallet.height, primary.height), FloorDiv(larger.height, primary.height);
      FloorDivMonotone(pallet.length, larger.length, primary.length);
      FloorDivMonotone(pallet.width, larger.width, primary.width);
      FloorDivMonotone(pallet.height, larger.height, primary.height);
      NatMulMonotone(n, n', m, m');
      NatMulMonotone(n * m, n' * m', l, l');
      NatMulMonotone(n * m * l, n' * m' * l', quantityPrimary, quantityPrimary);
    }
  }

  /** A larger primary box, everything else fixed, never yields more boxes
      per pallet. */
  lemma {:induction false} PackAntitoneInPrimary(primary: Dims, larger: Dims, pallet: Dims, quantityPrimary: nat)
    requires primary.Positive() && primary.Within(larger)
    ensures var p, p' := Pack(primary, pallet, quantityPrimary), Pack(larger, pallet, quantityPrimary);
      && p'.boxesPerLayer <= p.boxesPerLayer
      && p'.layers <= p.layers
      && p'.totalBoxesPerPallet <= p.totalBoxesPerPallet
      && p'.quantitySecondary <= p.quantitySecondary
  {
    if pallet.Positive() {
      var n, n' := FloorDiv(pallet.length, primary.length), FloorDiv(pallet.length, larger.length);
      var m, m' := FloorDiv(pallet.width, primary.width), FloorDiv(pallet.width, larger.width);
      var l, l' := FloorDiv(pallet.height, primary.height), FloorDiv(pallet.height, larger.height);
      FloorDivAntitone(pallet.length, primary.length, larger.length);
      FloorDivAntitone(pallet.width, primary.width, larger.width);
      FloorDivAntitone(pallet.height, primary.height, larger.height);
      NatMulMonotone(n', n, m', m);
      NatMulMonotone(n' * m', n * m, l', l);
      NatMulMonotone(n' * m' * l', n * m * l, quantityPrimary, quantityPrimary);
    }
  }

  /** The counts depend only on ratios of lengths, so measuring every
      dimension in another unit leaves them unchanged. */
  lemma {:induction false} PackScaleInvariant(primary: Dims, pallet: Dims, quantityPrimary: nat, k: real)
    requires k > 0.0
    ensures Pack(primary.Scale(k), pallet.Scale(k), quantityPrimary) == Pack(primary, pallet, quantityPrimary)
  {
    ScalePositive(primary, k);
    ScalePositive(pallet, k);
    if primary.Positive() && pallet.Positive() {
      ScaleFloorDivs(primary, pallet, k);
      PackCounts(primary, pallet, quantityPrimary);
      PackCounts(primary.Scale(k), pallet.Scale(k), quantityPrimary);
    }
  }

  lemma ScaleFloorDivs(primary: Dims, pallet: Dims, k: real)
    requires k > 0.0 && primary.Positive() && pallet.Positive()
    ensures FloorDiv(pallet.Scale(k).length, primary.Scale(k).length) == FloorDiv(pallet.length, primary.length)
    ensures FloorDiv(pallet.Scale(k).width, primary.Scale(k).width) == FloorDiv(pallet.width, primary.width)
    ensures FloorDiv(pallet.Scale(k).height, primary.Scale(k).height) == FloorDiv(pallet.height, primary.height)
  {
    var primary', pallet' := primary.Scale(k), pallet.Scale(k);
    FloorDivScale(pallet.length, primary.length, k, pallet'.length, primary'.length);
    FloorDivScale(pallet.width, primary.width, k, pallet'.width, primary'.width);
    FloorDivScale(pallet.height, primary.height, k, pallet'.height, primary'.height);
  }

  /** `Pack` on positive dimensions, spelled out in its three floor
      divisions. */
  lemma PackCounts(primary: Dims, pallet: Dims, quantityPrimary: nat)
    requires primary.Positive() && pallet.Positive()
    ensures var n, m, l :=
        FloorDiv(pallet.length, primary.length),
        FloorDiv(pallet.width, primary.width),
        FloorDiv(pallet.height, primary.height);
      Pack(primary, pallet, quantityPrimary) == PackingResult(n * m, l, n * m * l, n * m * l * quantityPrimary)
  {
  }

  /** A 40 x 30 x 20 cm box of 10 parts on a 120 x 100 x 150 cm pallet:
      3 x 3 boxes per layer, 7 layers, 63 boxes, 630 parts. */
  lemma PackExample()
    ensures Pack(Dims(40.0, 30.0, 20.0), Dims(120.0, 100.0, 150.0), 10) == PackingResult(9, 7, 63, 630)
  {
    var primary, pallet := Dims(40.0, 30.0, 20.0), Dims(120.0, 100.0, 150.0);
    assert MaxFit(3, 40.0, 120.0) && MaxFit(3, 30.0, 100.0) && MaxFit(7, 20.0, 150.0);
    MaxFitUnique(3, FloorDiv(120.0, 40.0), 40.0, 120.0);
    MaxFitUnique(3, FloorDiv(100.0, 30.0), 30.0, 100.0);
    MaxFitUnique(7, FloorDiv(150.0, 20.0), 20.0, 150.0);
  }
}
