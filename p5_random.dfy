/** The three forms of p5's `random` that the sketches call, written over
    one uniform draw `u` in [0, 1), and the random source they draw from.

    p5 computes one draw per call and then:
    - `random(n)` returns `u * n`;
    - `random(arr)` returns `arr[floor(u * arr.length)]`;
    - `random(min, max)` first swaps the bounds when `min > max` and then
      returns `u * (max - min) + min`. */
module P5Random {

  /** A draw of `Math.random`: a real in [0, 1). */
  predicate IsUnit(u: real) {
    0.0 <= u < 1.0
  }

  /** `v` lies in the closed interval spanned by `a` and `b`, whichever of
      the two is smaller. */
  predicate Between(v: real, a: real, b: real) {
    if a <= b then a <= v <= b else b <= v <= a
  }

  /** A draw scales a non-negative width to a value in [0, width], and
      strictly below the width when the width is positive. */
  lemma ScaledDraw(u: real, width: real)
    requires IsUnit(u) && width >= 0.0
    ensures 0.0 <= Scaled(u, width) <= width
    ensures width > 0.0 ==> Scaled(u, width) < width
  {
    assert width - u * width == (1.0 - u) * width;
    assert (1.0 - u) * width >= 0.0;
    assert width > 0.0 ==> (1.0 - u) * width > 0.0;
  }

  /** The draw `u` applied to a width: `u * width`. */
  function Scaled(u: real, width: real): real {
    u * width
  }

  /** `random(min, max)`: the bounds are swapped when `min > max`. */
  function RandomBetween(lo: real, hi: real, u: real): real {
    var low := if lo > hi then hi else lo;
    var high := if lo > hi then lo else hi;
    Scaled(u, high - low) + low
  }

  /** Because of the swap, the result of `random(min, max)` always lies
      between the two bounds, in whichever order they were given, and
      strictly below the larger bound when the two differ. */
  lemma RandomBetweenBounds(lo: real, hi: real, u: real)
    requires IsUnit(u)
    ensures Between(RandomBetween(lo, hi, u), lo, hi)
    ensures lo < hi ==> RandomBetween(lo, hi, u) < hi
    ensures hi < lo ==> RandomBetween(lo, hi, u) < lo
  {
    if lo > hi {
      ScaledDraw(u, lo - hi);
    } else {
      ScaledDraw(u, hi - lo);
    }
  }

  /** `random(n)` with one number. */
  function RandomScale(n: real, u: real): real {
    Scaled(u, n)
  }

  /** `random(n)` for positive `n` is a real in [0, n). */
  lemma RandomScaleBounds(n: real, u: real)
    requires IsUnit(u) && n > 0.0
    ensures 0.0 <= RandomScale(n, u) < n
  {
    ScaledDraw(u, n);
  }

  /** The largest index `r` in `[i, length)` with `r <= x`, found by
      counting up from `i`: for `0 <= x < length` this is `floor(x)`. */
  function FloorBelow(x: real, length: nat, i: nat): (r: nat)
    requires i < length
    ensures i <= r < length
    decreases length - i
  {
    if i + 1 < length && (i + 1) as real <= x then FloorBelow(x, length, i + 1) else i
  }

  /** `FloorBelow` is `Math.floor` on `[0, length)`. */
  lemma {:induction false} FloorBelowIsFloor(x: real, length: nat, i: nat)
    requires i < length && i as real <= x < length as real
    ensures FloorBelow(x, length, i) as real <= x < FloorBelow(x, length, i) as real + 1.0
    decreases length - i
  {
    if i + 1 < length && (i + 1) as real <= x {
      FloorBelowIsFloor(x, length, i + 1);
    }
  }

  /** Index chosen by `random(arr)`: `Math.floor(u * arr.length)` (see
      `FloorBelowIsFloor`; a draw in [0, 1) never reaches the clamp at the
      last index). */
  function PickIndex(length: nat, u: real): (i: nat)
    requires length > 0
    ensures i < length
  {
    FloorBelow(Scaled(u, length as real), length, 0)
  }

  /** For a draw in [0, 1), the index is `Math.floor(u * length)`. */
  lemma PickIndexIsFloor(length: nat, u: real)
    requires length > 0 && IsUnit(u)
    ensures var i := PickIndex(length, u);
            i as real <= u * (length as real) < i as real + 1.0
  {
    ScaledDraw(u, length as real);
    FloorBelowIsFloor(Scaled(u, length as real), length, 0);
  }

  /** `random(arr)`: an element of the array. */
  function RandomPick<T>(arr: seq<T>, u: real): (r: T)
    requires |arr| > 0
    ensures r in arr
  {
    arr[PickIndex(|arr|, u)]
  }

  /** Every value of the stream is a draw in [0, 1). */
  ghost predicate UnitStream(source: nat -> real) {
    forall k: nat :: IsUnit(source(k))
  }

  /** The generator behind `random`: an endless stream of draws, of which
      the first `drawn` have been used. Each call of `random` consumes
      exactly one draw. */
  class Random {
    const source: nat -> real
    var drawn: nat

    ghost predicate Valid() {
      UnitStream(source)
    }

    constructor (source: nat -> real)
      requires UnitStream(source)
      ensures Valid() && this.source == source && drawn == 0
    {
      this.source := source;
      drawn := 0;
    }

    /** `Math.random()`: the next draw of the stream. */
    method Next() returns (u: real)
      requires Valid()
      modifies this
      ensures u == source(old(drawn)) && IsUnit(u)
      ensures drawn == old(drawn) + 1
    {
      u := source(drawn);
      drawn := drawn + 1;
    }
  }
}
