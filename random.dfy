/**
 * The random draws the generator makes through numpy's global generator
 * (`np.random.uniform`, `np.random.choice`), made explicit.
 *
 * The seeded generator is a stream: draw number k yields a unit value in
 * [0, 1). `uniform(lo, hi)` scales the next unit value onto the interval, as
 * numpy does; `choice(pool)` takes the element at index floor(u * n), which is
 * uniform over the n indices when u is. Which stream a seed selects is not
 * modelled: the seeded stream is a parameter. numpy's state is shared by the
 * whole process; here each RandomState is owned by one generator.
 */
module Random {
  import opened Geometry

  type Unit = u: real | 0.0 <= u < 1.0

  /** The draws of one seeded generator, indexed by draw number. */
  type Stream = nat -> Unit

  /** A value together with the draw number the stream has reached after it. */
  datatype Drawn<T> = Drawn(value: T, next: nat)

  /** `np.random.uniform(lo, hi)` for the unit draw u: `lo + (hi - lo) * u`. */
  function UniformValue(lo: real, hi: real, u: Unit): real {
    lo + Scale(hi - lo, u)
  }

  function Scale(w: real, u: Unit): real { w * u }

  /** A uniform draw lies in the closed interval between its two bounds, short of hi when lo < hi. */
  lemma UniformWithin(lo: real, hi: real, u: Unit)
    ensures lo <= hi ==> lo <= UniformValue(lo, hi, u) <= hi
    ensures hi <= lo ==> hi <= UniformValue(lo, hi, u) <= lo
    ensures lo < hi ==> UniformValue(lo, hi, u) < hi
  {
    ScaledUnitBounds(hi - lo, u);
  }

  /** (w * u) lies between 0 and w, and strictly short of w when w > 0. */
  lemma ScaledUnitBounds(w: real, u: Unit)
    ensures 0.0 <= w ==> 0.0 <= Scale(w, u) <= w
    ensures 0.0 < w ==> Scale(w, u) < w
    ensures w <= 0.0 ==> w <= Scale(w, u) <= 0.0
  {
    if 0.0 < w {
      assert w - w * u == w * (1.0 - u);
      PositiveProduct(w, 1.0 - u);
    } else if w < 0.0 {
      assert w * u - w == (-w) * (1.0 - u);
      PositiveProduct(-w, 1.0 - u);
    }
  }

  /** The index `np.random.choice` picks among n elements for the unit draw u. */
  function ChoiceIndex(n: nat, u: Unit): (i: nat)
    requires 0 < n
    ensures i < n
  {
    ScaledUnitBounds(n as real, u);
    Scale(n as real, u).Floor
  }

  /** `np.random.choice(pool)` for the unit draw u: always an element of the pool. */
  function ChoiceValue(pool: seq<real>, u: Unit): (v: real)
    requires 0 < |pool|
    ensures v in pool
  {
    pool[ChoiceIndex(|pool|, u)]
  }

  /** The generator's state: its seeded stream and the number of draws made so far. */
  class RandomState {
    const stream: Stream
    var drawn: nat

    /** `np.random.seed(seed)`: start the stream that seed selects. */
    constructor (stream: Stream)
      ensures this.stream == stream && drawn == 0
    {
      this.stream := stream;
      drawn := 0;
    }

    /** `np.random.uniform(lo, hi)`: consumes one draw. */
    method Uniform(lo: real, hi: real) returns (v: real)
      modifies this
      ensures v == UniformValue(lo, hi, stream(old(drawn)))
      ensures drawn == old(drawn) + 1
    {
      v := UniformValue(lo, hi, stream(drawn));
      drawn := drawn + 1;
    }

    /** `np.random.choice(pool)`: consumes one draw; numpy raises on an empty pool. */
    method Choice(pool: seq<real>) returns (v: real)
      requires 0 < |pool|
      modifies this
      ensures v == ChoiceValue(pool, stream(old(drawn)))
      ensures drawn == old(drawn) + 1
    {
      v := ChoiceValue(pool, stream(drawn));
      drawn := drawn + 1;
    }
  }
}
