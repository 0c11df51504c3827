/** The container catalogue and how many pallets fit into a container
    (app.py:103-118). */
module Containers {
  import opened Geometry

  datatype Option<T> = None | Some(value: T)

  /** The three container types the portal offers. */
  datatype ContainerType = Standard40 | HighCube40 | Trailer53 {

    /** The name shown in the container drop-down. */
    function Name(): string {
      match this
      case Standard40 => "40' Standard"
      case HighCube40 => "40' High Cube"
      case Trailer53 => "53' Trailer"
    }

    /** Interior length, width and height in centimetres. */
    function Interior(): (d: Dims)
      ensures d.Positive()
    {
      match this
      case Standard40 => Dims(1200.0, 235.0, 239.0)
      case HighCube40 => Dims(1200.0, 235.0, 270.0)
      case Trailer53 => Dims(1600.0, 260.0, 279.4)
    }
  }

  /** The catalogue, in drop-down order. */
  const Catalogue: seq<ContainerType> := [Standard40, HighCube40, Trailer53]

  /** The `container_specs[selected_container]` lookup by display name.
      `None` stands for the missing-key error, which the drop-down never
      lets happen. */
  function Lookup(name: string): (r: Option<ContainerType>)
    ensures forall c: ContainerType :: c.Name() == name <==> r == Some(c)
  {
    if name == Standard40.Name() then Some(Standard40)
    else if name == HighCube40.Name() then Some(HighCube40)
    else if name == Trailer53.Name() then Some(Trailer53)
    else None
  }

  /** Every container type is offered, and every name in the drop-down
      resolves. */
  lemma CatalogueComplete()
    ensures forall c: ContainerType :: c in Catalogue
    ensures forall i :: 0 <= i < |Catalogue| ==> Lookup(Catalogue[i].Name()) == Some(Catalogue[i])
  {
    forall c: ContainerType
      ensures c in Catalogue
    {
      match c
      case Standard40 => assert Catalogue[0] == c;
      case HighCube40 => assert Catalogue[1] == c;
      case Trailer53 => assert Catalogue[2] == c;
    }
  }

  /** How the selected container is filled with pallets. */
  datatype FitResult = FitResult(
    rows: nat,
    cols: nat,
    stacks: nat,
    palletsPerContainer: nat,
    utilization: real)

  /** Pallets of extent `size` in a row of `space`; none when the pallet
      extent is not positive. */
  function CountAlong(space: real, size: real): (k: nat)
    requires space >= 0.0
    ensures size <= 0.0 ==> k == 0
    ensures size > 0.0 ==> MaxFit(k, size, space)
  {
    if size > 0.0 then FloorDiv(space, size) else 0
  }

  /** Percentage of the container volume taken by the pallets; 0 for a
      container of no volume. */
  function Utilization(palletVolume: real, pallets: nat, containerVolume: real): (u: real)
    ensures containerVolume <= 0.0 ==> u == 0.0
    ensures containerVolume > 0.0 ==> u * containerVolume == 100.0 * (palletVolume * pallets as real)
  {
    if containerVolume > 0.0 then ((palletVolume * pallets as real) / containerVolume) * 100.0 else 0.0
  }

  /** Pallets in a container: rows along its length, columns across its
      width and stacks up its height, each the most that fit; and the
      percentage of the container's volume they fill. */
  function Fit(pallet: Dims, container: Dims): (f: FitResult)
    requires container.NonNegative()
    ensures pallet.length <= 0.0 ==> f.rows == 0
    ensures pallet.width <= 0.0 ==> f.cols == 0
    ensures pallet.height <= 0.0 ==> f.stacks == 0
    ensures pallet.length > 0.0 ==> MaxFit(f.rows, pallet.length, container.length)
    ensures pallet.width > 0.0 ==> MaxFit(f.cols, pallet.width, container.width)
    ensures pallet.height > 0.0 ==> MaxFit(f.stacks, pallet.height, container.height)
    ensures f.palletsPerContainer == f.rows * f.cols * f.stacks
    ensures f.palletsPerContainer > 0 ==> pallet.Positive()
    ensures f.palletsPerContainer as real * pallet.Volume() <= container.Volume()
    ensures f.palletsPerContainer == 0 || container.Volume() <= 0.0 ==> f.utilization == 0.0
    ensures container.Volume() > 0.0 ==>
              f.utilization * container.Volume() == 100.0 * (pallet.Volume() * f.palletsPerContainer as real)
    ensures 0.0 <= f.utilization <= 100.0
  {
    var rows := CountAlong(container.length, pallet.length);
    var cols := CountAlong(container.width, pallet.width);
    var stacks := CountAlong(container.height, pallet.height);
    var pallets := rows * cols * stacks;
    var utilization := Utilization(pallet.Volume(), pallets, container.Volume());
    FitBounds(pallet, container, rows, cols, stacks);
    UtilizationBounds(pallet.Volume(), pallets, container.Volume());
    FitResult(rows, cols, stacks, pallets, utilization)
  }

  /** The pallets counted occupy no more than the container's volume. */
  lemma {:induction false} FitBounds(pallet: Dims, container: Dims, rows: nat, cols: nat, stacks: nat)
    requires container.NonNegative()
    requires rows == CountAlong(container.length, pallet.length)
    requires cols == CountAlong(container.width, pallet.width)
    requires stacks == CountAlong(container.height, pallet.height)
    ensures rows * cols * stacks > 0 ==> pallet.Positive()
    ensures (rows * cols * stacks) as real * pallet.Volume() <= container.Volume()
  {
    MulMonotone(0.0, container.length, 0.0, container.width);
    MulMonotone(0.0, container.length * container.width, 0.0, container.height);
    if pallet.Positive() {
      assert MaxFit(rows, pallet.length, container.length);
      assert MaxFit(cols, pallet.width, container.width);
      assert MaxFit(stacks, pallet.height, container.height);
      GridVolumeFits(rows, cols, stacks, pallet, container);
    } else {
      assert rows == 0 || cols == 0 || stacks == 0;
    }
  }

  /** A volume share of at most the whole is a percentage in 0..100. */
  lemma UtilizationBounds(palletVolume: real, pallets: nat, containerVolume: real)
    requires containerVolume >= 0.0
    requires pallets > 0 ==> palletVolume > 0.0
    requires pallets as real * palletVolume <= containerVolume
    ensures var u := Utilization(palletVolume, pallets, containerVolume);
      && (pallets == 0 || containerVolume <= 0.0 ==> u == 0.0)
      && (containerVolume > 0.0 ==> u * containerVolume == 100.0 * (palletVolume * pallets as real))
      && 0.0 <= u <= 100.0
  {
    if containerVolume > 0.0 {
      var x := palletVolume * pallets as real;
      var share := x / containerVolume;
      assert share * containerVolume == x;
      if pallets > 0 {
        MulLeRight(0.0, palletVolume, pallets as real);
      }
      assert 0.0 <= x <= containerVolume;
      if share > 1.0 {
        MulStrictRight(1.0, share, containerVolume);
      }
      if share < 0.0 {
        MulStrictRight(share, 0.0, containerVolume);
      }
    }
  }

  /** A container at least as large on every axis never holds fewer
      pallets of the same size. */
  lemma {:induction false} FitMonotoneInContainer(pallet: Dims, small: Dims, large: Dims)
    requires small.NonNegative() && small.Within(large)
    ensures large.NonNegative()
    ensures var f, g := Fit(pallet, small), Fit(pallet, large);
      && f.rows <= g.rows && f.cols <= g.cols && f.stacks <= g.stacks
      && f.palletsPerContainer <= g.palletsPerContainer
  {
    var f, g := Fit(pallet, small), Fit(pallet, large);
    if pallet.length > 0.0 {
      FloorDivMonotone(small.length, large.length, pallet.length);
    }
    if pallet.width > 0.0 {
      FloorDivMonotone(small.width, large.width, pallet.width);
    }
    if pallet.height > 0.0 {
      FloorDivMonotone(small.height, large.height, pallet.height);
    }
    NatMulMonotone(f.rows, g.rows, f.cols, g.cols);
    NatMulMonotone(f.rows * f.cols, g.rows * g.cols, f.stacks, g.stacks);
  }

  /** The high-cube container, taller than the standard one, holds at
      least as many pallets of any size. */
  lemma HighCubeHoldsAtLeastStandard(pallet: Dims)
    ensures Fit(pallet, Standard40.Interior()).palletsPerContainer
         <= Fit(pallet, HighCube40.Interior()).palletsPerContainer
  {
    FitMonotoneInContainer(pallet, Standard40.Interior(), HighCube40.Interior());
  }

  /** The rows, columns and stacks of `f` span the container exactly. */
  predicate TilesExactly(f: FitResult, pallet: Dims, container: Dims) {
    && f.rows as real * pallet.length == container.length
    && f.cols as real * pallet.width == container.width
    && f.stacks as real * pallet.height == container.height
  }

  /** The pallets fill the container completely exactly when they tile
      it with no gap on any axis. */
  lemma {:induction false} FullUtilization(pallet: Dims, container: Dims)
    requires pallet.Positive() && container.Positive()
    ensures var f := Fit(pallet, container);
      f.utilization == 100.0 <==> TilesExactly(f, pallet, container)
  {
    var f := Fit(pallet, container);
    var pallets := f.palletsPerContainer as real;
    assert Fits(f.rows, pallet.length, container.length);
    assert Fits(f.cols, pallet.width, container.width);
    assert Fits(f.stacks, pallet.height, container.height);
    assert pallets == f.rows as real * f.cols as real * f.stacks as real by {
      NatProductAsReal(f.rows, f.cols, f.stacks, f.palletsPerContainer);
    }
    assert f.utilization * container.Volume() == 100.0 * (pallet.Volume() * pallets) by {
      PositiveVolume(container);
    }
    FullGrid(pallet, container, f, pallets);
  }

  /** `FullUtilization` over the counts of a fit. */
  lemma FullGrid(pallet: Dims, container: Dims, f: FitResult, pallets: real)
    requires pallet.Positive() && container.Positive()
    requires Fits(f.rows, pallet.length, container.length)
    requires Fits(f.cols, pallet.width, container.width)
    requires Fits(f.stacks, pallet.height, container.height)
    requires pallets == f.rows as real * f.cols as real * f.stacks as real
    requires f.utilization * container.Volume() == 100.0 * (pallet.Volume() * pallets)
    ensures f.utilization == 100.0 <==> TilesExactly(f, pallet, container)
  {
    GridShare(f.utilization, pallets, f.rows as real, f.cols as real, f.stacks as real,
              pallet.length, pallet.width, pallet.height, pallet.Volume(),
              container.length, container.width, container.height, container.Volume());
  }

  /** `FullUtilization` on plain reals: `r` by `c` by `s` boxes of extents `a`,
      `b`, `h` in a space of extents `a'`, `b'`, `h'`. */
  lemma GridShare(u: real, pallets: real, r: real, c: real, s: real,
                  a: real, b: real, h: real, volume: real,
                  a': real, b': real, h': real, whole: real)
    requires a > 0.0 && b > 0.0 && h > 0.0 && a' > 0.0 && b' > 0.0 && h' > 0.0
    requires r >= 0.0 && c >= 0.0 && s >= 0.0
    requires r * a <= a' && c * b <= b' && s * h <= h'
    requires pallets == r * c * s && volume == a * b * h && whole == a' * b' * h'
    requires u * whole == 100.0 * (volume * pallets)
    ensures u == 100.0 <==> r * a == a' && c * b == b' && s * h == h'
  {
    var x, y, z := r * a, c * b, s * h;
    assert 0.0 <= x by { MulLeRight(0.0, r, a); }
    assert 0.0 <= y by { MulLeRight(0.0, c, b); }
    assert 0.0 <= z by { MulLeRight(0.0, s, h); }
    assert volume * pallets == x * y * z;
    ShareOfWhole(u, volume * pallets, whole, x, a', y, b', z, h');
  }

  /** A share `u` percent of a box's volume, taken by a sub-box no larger
      on any axis, is 100 exactly when the sub-box is the whole box. */
  lemma ShareOfWhole(u: real, taken: real, whole: real, x: real, x': real, y: real, y': real, z: real, z': real)
    requires 0.0 <= x <= x' && 0.0 <= y <= y' && 0.0 <= z <= z'
    requires x' > 0.0 && y' > 0.0 && z' > 0.0
    requires taken == x * y * z && whole == x' * y' * z'
    requires u * whole == 100.0 * taken
    ensures u == 100.0 <==> x == x' && y == y' && z == z'
  {
    assert whole > 0.0 by {
      MulStrictRight(0.0, x', y');
      MulStrictRight(0.0, x' * y', z');
    }
    if x == x' && y == y' && z == z' {
      assert taken == whole;
      MulCancelEq(u, 100.0, whole);
    } else {
      assert taken < whole by {
        StrictProduct(x, x', y, y', z, z');
      }
    }
  }

  lemma MulCancelEq(x: real, y: real, b: real)
    requires b > 0.0 && x * b == y * b
    ensures x == y
  {
    if x < y {
      MulStrictRight(x, y, b);
    } else if y < x {
      MulStrictRight(y, x, b);
    }
  }

  /** A product of three bounded factors reaches the product of the bounds
      only when every factor does. */
  lemma StrictProduct(a: real, a': real, b: real, b': real, c: real, c': real)
    requires 0.0 <= a <= a' && 0.0 <= b <= b' && 0.0 <= c <= c'
    requires a' > 0.0 && b' > 0.0 && c' > 0.0
    requires a < a' || b < b' || c < c'
    ensures a * b * c < a' * b' * c'
  {
    MulStrictRight(0.0, b', c');
    MulMonotone(b, b', c, c');
    if a < a' {
      MulLeRight(a, a', b * c);
      MulLeRight(b * c, b' * c', a');
      MulStrictRight(a, a', b' * c');
      MulLeRight(b * c, b' * c', a);
    } else {
      MulStrictRight(0.0, a', b');
      MulLeRight(a, a', b * c);
      if b < b' {
        MulLeRight(c, c', b);
        MulStrictRight(b, b', c');
      } else {
        MulStrictRight(c, c', b');
      }
      MulStrictRight(b * c, b' * c', a');
    }
  }

  /** A 120 x 100 x 150 cm pallet in the 40' standard container: 10 rows,
      2 columns, 1 stack, 20 pallets filling 36,000,000 of 67,398,000 cubic
      centimetres. */
  lemma FitExample()
    ensures var f := Fit(Dims(120.0, 100.0, 150.0), Standard40.Interior());
      && f.rows == 10 && f.cols == 2 && f.stacks == 1 && f.palletsPerContainer == 20
      && f.utilization == (36000000.0 / 67398000.0) * 100.0
  {
    assert MaxFit(10, 120.0, 1200.0) && MaxFit(2, 100.0, 235.0) && MaxFit(1, 150.0, 239.0);
    MaxFitUnique(10, FloorDiv(1200.0, 120.0), 120.0, 1200.0);
    MaxFitUnique(2, FloorDiv(235.0, 100.0), 100.0, 235.0);
    MaxFitUnique(1, FloorDiv(239.0, 150.0), 150.0, 239.0);
  }
}
