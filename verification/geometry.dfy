/** Box extents and the floor division that grid tiling rests on
    (app.py:87-93, 111-117). */
module Geometry {

  /** Extents of an axis-aligned box (primary box, pallet load or
      container interior), all in one length unit. */
  datatype Dims = Dims(length: real, width: real, height: real) {

    /** Every extent is strictly positive: the guard the packing uses. */
    predicate Positive() {
      length > 0.0 && width > 0.0 && height > 0.0
    }

    predicate NonNegative() {
      length >= 0.0 && width >= 0.0 && height >= 0.0
    }

    function Volume(): real {
      length * width * height
    }

    /** Every extent multiplied by `k` (a change of length unit). */
    function Scale(k: real): Dims {
      Dims(k * length, k * width, k * height)
    }

    /** No extent exceeds the matching extent of `other`. */
    predicate Within(other: Dims) {
      length <= other.length && width <= other.width && height <= other.height
    }
  }

  /** Scaling by a positive factor keeps every extent's sign. */
  lemma ScalePositive(d: Dims, k: real)
    requires k > 0.0
    ensures d.Scale(k).Positive() <==> d.Positive()
  {
    MulSignPositive(k, d.length);
    MulSignPositive(k, d.width);
    MulSignPositive(k, d.height);
  }

  lemma PositiveVolume(d: Dims)
    requires d.Positive()
    ensures d.Volume() > 0.0
  {
    MulStrictRight(0.0, d.length, d.width);
    MulStrictRight(0.0, d.length * d.width, d.height);
  }

  /** Counting then converting to a real equals converting then
      multiplying. */
  lemma NatProductAsReal(a: nat, b: nat, c: nat, p: nat)
    requires p == a * b * c
    ensures p as real == a as real * b as real * c as real
  {
    assert (a * b) as real == a as real * b as real;
  }

  /** `k` items of extent `size` fit in `space` along one axis, and
      `k + 1` do not. */
  predicate MaxFit(k: int, size: real, space: real) {
    Fits(k, size, space) && space < (k as real + 1.0) * size
  }

  /** `k` items of extent `size` fit in `space` along one axis. */
  predicate Fits(k: int, size: real, space: real) {
    k as real * size <= space
  }

  lemma MulStrictRight(x: real, y: real, b: real)
    requires x < y && b > 0.0
    ensures x * b < y * b
  {
  }

  lemma MulLeRight(x: real, y: real, b: real)
    requires x <= y && b >= 0.0
    ensures x * b <= y * b
  {
  }

  /** Scaling by a positive factor keeps the sign. */
  lemma MulSignPositive(k: real, x: real)
    requires k > 0.0
    ensures k * x > 0.0 <==> x > 0.0
  {
    if x > 0.0 {
      MulStrictRight(0.0, x, k);
    } else {
      MulLeRight(x, 0.0, k);
    }
  }

  /** Dividing a strict inequality by a positive factor. */
  lemma MulCancelStrict(x: real, y: real, b: real)
    requires b > 0.0 && x * b < y * b
    ensures x < y
  {
    if y <= x {
      MulLeRight(y, x, b);
    }
  }

  /** Multiplying inequalities between non-negative reals. */
  lemma MulMonotone(a: real, b: real, c: real, d: real)
    requires 0.0 <= a <= b && 0.0 <= c <= d
    ensures a * c <= b * d
  {
    MulLeRight(a, b, c);
    MulLeRight(c, d, b);
  }

  lemma NatMulMonotone(a: nat, b: nat, c: nat, d: nat)
    requires a <= b && c <= d
    ensures a * c <= b * d
  {
    assert a * c <= b * c;
    assert b * c <= b * d;
  }

  /** Python's `int(a // b)` for a positive divisor: the number of whole
      `b`s in `a`, rounded towards minus infinity. */
  function FloorDiv(a: real, b: real): (q: int)
    requires b > 0.0
    ensures MaxFit(q, b, a)
    ensures a >= 0.0 ==> q >= 0
  {
    FloorBracket(a, b, (a / b).Floor);
    (a / b).Floor
  }

  /** The floor of `a / b` brackets `a` between consecutive multiples of
      `b`. */
  lemma FloorBracket(a: real, b: real, k: int)
    requires b > 0.0 && k == (a / b).Floor
    ensures MaxFit(k, b, a)
    ensures a >= 0.0 ==> k >= 0
  {
    var x := a / b;
    assert x * b == a;
    assert x < k as real + 1.0;
    MulStrictRight(x, k as real + 1.0, b);
    assert a < (k as real + 1.0) * b;
    MulLeRight(k as real, x, b);
  }

  /** At most one count fits an axis exactly, so `MaxFit` pins `FloorDiv`. */
  lemma MaxFitUnique(j: int, k: int, size: real, space: real)
    requires size > 0.0
    requires MaxFit(j, size, space) && MaxFit(k, size, space)
    ensures j == k
  {
    MaxFitBelow(j, k, size, space);
    MaxFitBelow(k, j, size, space);
  }

  /** Any count that fits is at most the maximal one. */
  lemma MaxFitBelow(j: int, k: int, size: real, space: real)
    requires size > 0.0
    requires MaxFit(j, size, space) && k as real * size <= space
    ensures k <= j
  {
    MulCancelStrict(k as real, j as real + 1.0, size);
  }

  /** More space never fits fewer items. */
  lemma FloorDivMonotone(a: real, a': real, b: real)
    requires b > 0.0 && a <= a'
    ensures FloorDiv(a, b) <= FloorDiv(a', b)
  {
    MaxFitBelow(FloorDiv(a', b), FloorDiv(a, b), b, a');
  }

  /** Larger items never fit more of themselves into the same space. */
  lemma FloorDivAntitone(a: real, b: real, b': real)
    requires a >= 0.0 && 0.0 < b <= b'
    ensures FloorDiv(a, b') <= FloorDiv(a, b)
  {
    var q' := FloorDiv(a, b');
    MulLeRight(b, b', q' as real);
    assert q' as real * b <= q' as real * b' <= a;
    MaxFitBelow(FloorDiv(a, b), q', b, a);
  }

  /** Floor division depends only on the ratio: scaling both operands by
      the same positive factor leaves the count unchanged. */
  lemma FloorDivScale(a: real, b: real, k: real, a': real, b': real)
    requires b > 0.0 && k > 0.0
    requires a' == k * a && b' == k * b
    ensures b' > 0.0
    ensures FloorDiv(a', b') == FloorDiv(a, b)
  {
    MulStrictRight(0.0, b, k);
    var q := FloorDiv(a, b);
    MulLeRight(q as real * b, a, k);
    MulStrictRight(a, (q as real + 1.0) * b, k);
    assert MaxFit(q, b', a');
    MaxFitUnique(FloorDiv(a', b'), q, b', a');
  }

  /** An `n` by `m` by `l` grid of `box`es whose rows fit `space` on every
      axis occupies no more than the volume of `space`. */
  lemma {:induction false} GridVolumeFits(n: nat, m: nat, l: nat, box: Dims, space: Dims)
    requires box.Positive()
    requires Fits(n, box.length, space.length)
    requires Fits(m, box.width, space.width)
    requires Fits(l, box.height, space.height)
    ensures (n * m * l) as real * box.Volume() <= space.Volume()
  {
    var a, b, c := n as real * box.length, m as real * box.width, l as real * box.height;
    MulMonotone(a, space.length, b, space.width);
    MulMonotone(a * b, space.length * space.width, c, space.height);
    NatProductAsReal(n, m, l, n * m * l);
  }
}
