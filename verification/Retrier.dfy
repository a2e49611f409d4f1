/** The default retrier's data and its jitter arithmetic on 64-bit nanoseconds. */
module Retrier {
  import opened Options

  newtype int64 = x: int | -0x8000_0000_0000_0000 <= x < 0x8000_0000_0000_0000

  /** Two's complement: what a 64-bit register keeps of an integer. */
  function Wrap64(x: int): (r: int64)
    ensures -TWO_TO_THE_63 <= x < TWO_TO_THE_63 ==> r as int == x
  {
    ((x + TWO_TO_THE_63) % TWO_TO_THE_64 - TWO_TO_THE_63) as int64
  }

  /** Integers of at most this size are float64 values. */
  const TWO_TO_THE_53: int := 0x20_0000_0000_0000
  const TWO_TO_THE_62: int := 0x4000_0000_0000_0000
  const TWO_TO_THE_63: int := 0x8000_0000_0000_0000
  const TWO_TO_THE_64: int := 2 * TWO_TO_THE_63

  /** The platform's float64: how exact values are rounded, and how floats become 64-bit integers. */
  datatype Floats = Floats(round: real -> real, toInt64: real -> int64)

  /** All the jitter arithmetic needs of it: rounding is monotone and leaves representable integers alone; a
      conversion drops the fraction if the result fits, and is otherwise up to the platform. */
  ghost predicate Float64(f: Floats) {
    && (forall x: real, y: real :: x <= y ==> f.round(x) <= f.round(y))
    && (forall x: real :: Representable(x) ==> f.round(x) == x)
    && (forall x: real :: -TWO_TO_THE_63 <= Truncate(x) < TWO_TO_THE_63 ==> f.toInt64(x) as int == Truncate(x))
  }

  ghost predicate Representable(x: real) {
    x == x.Floor as real && (-TWO_TO_THE_53 <= x.Floor <= TWO_TO_THE_53 || x.Floor == TWO_TO_THE_62)
  }

  datatype DefaultRetrier = DefaultRetrier(jitter: real, retryDelays: seq<int64>)

  predicate ValidDelay(d: int64) {
    0 <= d as int <= TWO_TO_THE_53
  }

  /** What the constructor establishes for delays of that size: a proper jitter, and one more attempt than the
      caller gave delays. */
  predicate ValidRetrier(r: DefaultRetrier) {
    && 0.0 <= r.jitter <= 1.0
    && |r.retryDelays| > 0
    && r.retryDelays[|r.retryDelays| - 1] == 0
    && forall d | d in r.retryDelays :: ValidDelay(d)
  }

  /** The jitter closest to the given one in [0, 1]. */
  function Clamp(jitter: real): (j: real)
    ensures 0.0 <= j <= 1.0
    ensures forall k: real {:trigger Distance(k, jitter)} ::
              0.0 <= k <= 1.0 ==> Distance(j, jitter) <= Distance(k, jitter)
  {
    if jitter < 0.0 then 0.0 else if jitter > 1.0 then 1.0 else jitter
  }

  function Distance(x: real, y: real): real {
    if x < y then y - x else x - y
  }

  method NewDefaultRetrier(jitter: real, delays: seq<int64>) returns (r: DefaultRetrier)
    ensures r == DefaultRetrier(Clamp(jitter), delays + [0])
    ensures ValidRetrier(r) <==> forall d | d in delays :: ValidDelay(d)
  {
    var j := jitter;
    if j < 0.0 {
      j := 0.0;
    } else if j > 1.0 {
      j := 1.0;
    }
    r := DefaultRetrier(j, delays + [0]);
    assert forall d :: d in r.retryDelays <==> d in delays || d == 0;
  }

  /** Conversion of a float to an integer drops the fraction. */
  function Truncate(x: real): int {
    if x >= 0.0 then x.Floor else -((-x).Floor)
  }

  /** The exact product, before rounding: between 0 and x. */
  function Scaled(x: real, jitter: real): (y: real)
    requires 0.0 <= jitter <= 1.0
    ensures 0.0 <= x ==> 0.0 <= y <= x
    ensures x < 0.0 ==> x <= y <= 0.0
  {
    x * jitter
  }

  /** What the multiplication yields: the base is rounded on its way to a float, and the product is. */
  function Product(base: int64, jitter: real, f: Floats): real
    requires 0.0 <= jitter <= 1.0
  {
    f.round(Scaled(f.round(base as int as real), jitter))
  }

  /** The jitter's share of the delay, in whole nanoseconds: of base's sign and, for bases that floats hold
      exactly, at most base in size. */
  function Offset(base: int64, jitter: real, f: Floats): (o: int64)
    requires 0.0 <= jitter <= 1.0 && Float64(f)
    ensures 0 <= base as int <= TWO_TO_THE_53 ==> 0 <= o <= base
    ensures -TWO_TO_THE_53 <= base as int < 0 ==> base <= o <= 0
  {
    ProductBounds(base, jitter, f);
    f.toInt64(Product(base, jitter, f))
  }

  lemma ProductBounds(base: int64, jitter: real, f: Floats)
    requires 0.0 <= jitter <= 1.0 && Float64(f)
    ensures 0 <= base as int <= TWO_TO_THE_53 ==> 0.0 <= Product(base, jitter, f) <= base as int as real
    ensures -TWO_TO_THE_53 <= base as int < 0 ==> base as int as real <= Product(base, jitter, f) <= 0.0
  {
    hide Scaled;
    var n := base as int;
    if -TWO_TO_THE_53 <= n <= TWO_TO_THE_53 {
      assert Representable(n as real);
      RoundingKeepsBounds(Scaled(n as real, jitter), n, f);
    }
  }

  lemma RoundingKeepsBounds(x: real, n: int, f: Floats)
    requires -TWO_TO_THE_53 <= n <= TWO_TO_THE_53
    requires Float64(f)
    ensures 0.0 <= x <= n as real ==> 0.0 <= f.round(x) <= n as real
    ensures n as real <= x <= 0.0 ==> n as real <= f.round(x) <= 0.0
  {
    assert Representable(0.0) && Representable(n as real);
    assert f.round(0.0) == 0.0 && f.round(n as real) == n as real;
  }

  /** A number from a to b, if the width given to the generator is positive; otherwise the generator panics.
      The draw is any number. Every step wraps around. */
  function RandInt(a: int64, b: int64, draw: nat): (d: Option<int64>)
    ensures a <= b && (b as int) - (a as int) + 1 < TWO_TO_THE_63 ==> d.Some? && a <= d.value <= b
  {
    hide Wrap64;
    var width := Width(a, b);
    if width <= 0 then None else Some(Wrap64(draw % (width as int) + a as int))
  }

  function Width(a: int64, b: int64): int64 {
    Wrap64(Wrap64(b as int - a as int) as int + 1)
  }

  /** The ends of the jitter window. */
  function Left(base: int64, offset: int64): int64 {
    Wrap64(base as int - offset as int)
  }

  function Right(base: int64, offset: int64): int64 {
    Wrap64(base as int + offset as int)
  }

  /** The delay drawn, or none if the generator panics. Delays of valid size are drawn without overflow and stay
      within the offset of their base. */
  function CalcDelay(base: int64, jitter: real, f: Floats, draw: nat): (d: Option<int64>)
    requires 0.0 <= jitter <= 1.0 && Float64(f)
    ensures ValidDelay(base) ==>
              && d.Some? && 0 <= d.value <= 2 * base
              && base - Offset(base, jitter, f) <= d.value <= base + Offset(base, jitter, f)
  {
    hide Wrap64, RandInt, Offset, Float64;
    var offset := Offset(base, jitter, f);
    RandInt(Left(base, offset), Right(base, offset), draw)
  }

  /** The generator accepts its argument for these offsets and no others. A caller can tell from the base and
      the jitter: the offset is negative only if the base is. */
  lemma DrawDefined(base: int64, jitter: real, f: Floats, draw: nat)
    requires 0.0 <= jitter <= 1.0 && Float64(f)
    ensures var offset := Offset(base, jitter, f) as int;
            CalcDelay(base, jitter, f, draw).Some? <==> 0 <= offset < TWO_TO_THE_62 || offset < -TWO_TO_THE_62
    ensures Exact(base) ==>
              (CalcDelay(base, jitter, f, draw).Some? <==> base >= 0 || f.round(base as int as real * jitter) > -1.0)
  {
    hide Wrap64, Float64, Product, Truncate;
    var offset := Offset(base, jitter, f);
    WidthOfWindow(base, offset);
    PositiveWidths(offset);
    if Exact(base) {
      OffsetSign(base, jitter, f);
      ProductIsRoundedShare(base, jitter, f);
      ScaledIsProduct(base as int as real, jitter);
    }
  }

  /** Rounding and dropping the fraction keep a number between the integers around it. */
  lemma RoundingStaysNear(x: real, f: Floats)
    requires Float64(f) && -TWO_TO_THE_53 as real <= x <= TWO_TO_THE_53 as real
    ensures x.Floor <= f.toInt64(f.round(x)) as int <= Ceiling(x)
    ensures f.toInt64(f.round(x)) as int == Truncate(f.round(x))
  {
    CeilingBounds(x);
    var lo, hi := x.Floor as real, Ceiling(x) as real;
    assert Representable(lo) && Representable(hi);
    assert lo <= f.round(x) <= hi;
    assert x.Floor <= Truncate(f.round(x)) <= Ceiling(x);
  }

  lemma CeilingBounds(x: real)
    ensures x <= Ceiling(x) as real < x + 1.0
    ensures x == x.Floor as real ==> Ceiling(x) == x.Floor
    ensures -TWO_TO_THE_53 as real <= x <= TWO_TO_THE_53 as real ==>
              -TWO_TO_THE_53 <= x.Floor && Ceiling(x) <= TWO_TO_THE_53
  {
  }

  /** Floats hold the base exactly. */
  predicate Exact(base: int64) {
    -TWO_TO_THE_53 <= base as int <= TWO_TO_THE_53
  }

  /** The jitter's share is the product of delay and jitter to the nanosecond, and exactly it if that is whole; in
      between, the fraction of the rounded product is dropped. */
  lemma OffsetIsTheShare(base: int64, jitter: real, f: Floats)
    requires Exact(base) && 0.0 <= jitter <= 1.0 && Float64(f)
    ensures var share, offset := base as int as real * jitter, Offset(base, jitter, f) as int;
            && share - 1.0 < offset as real < share + 1.0
            && (share == share.Floor as real ==> offset as real == share)
            && (base >= 0 ==> offset as real <= f.round(share) < offset as real + 1.0)
            && (base < 0 ==> offset as real - 1.0 < f.round(share) <= offset as real)
  {
    hide Product, Offset, Float64;
    var n := base as int as real;
    ProductIsRoundedShare(base, jitter, f);
    ShareNear(Scaled(n, jitter), base, jitter, f);
    ScaledIsProduct(n, jitter);
  }

  lemma ScaledIsProduct(x: real, jitter: real)
    requires 0.0 <= jitter <= 1.0
    ensures Scaled(x, jitter) == x * jitter
  {
  }

  lemma ProductIsRoundedShare(base: int64, jitter: real, f: Floats)
    requires Exact(base) && 0.0 <= jitter <= 1.0 && Float64(f)
    ensures Product(base, jitter, f) == f.round(Scaled(base as int as real, jitter))
  {
    hide Scaled;
    assert Representable(base as int as real);
  }

  lemma ShareNear(share: real, base: int64, jitter: real, f: Floats)
    requires 0.0 <= jitter <= 1.0 && Float64(f) && -TWO_TO_THE_53 as real <= share <= TWO_TO_THE_53 as real
    requires Exact(base) && Product(base, jitter, f) == f.round(share)
    ensures var offset := Offset(base, jitter, f) as int;
            && share - 1.0 < offset as real < share + 1.0
            && (share == share.Floor as real ==> offset as real == share)
            && (base >= 0 ==> offset as real <= f.round(share) < offset as real + 1.0)
            && (base < 0 ==> offset as real - 1.0 < f.round(share) <= offset as real)
  {
    hide Product, Float64, Ceiling;
    ProductBounds(base, jitter, f);
    CeilingBounds(share);
    RoundingStaysNear(share, f);
  }

  /** A drawn delay is away from its base by less than the share and a nanosecond. */
  lemma DelayNearBase(base: int64, jitter: real, f: Floats, draw: nat)
    requires ValidDelay(base) && 0.0 <= jitter <= 1.0 && Float64(f)
    ensures var d, n := CalcDelay(base, jitter, f, draw), base as int as real;
            d.Some? && n - n * jitter - 1.0 < d.value as int as real < n + n * jitter + 1.0
  {
    hide Offset, Float64;
    OffsetIsTheShare(base, jitter, f);
  }

  /** Without jitter the delay is the base, whatever is drawn. */
  lemma NoJitterNoSpread(base: int64, f: Floats, draw: nat)
    requires ValidDelay(base) && Float64(f)
    ensures CalcDelay(base, 0.0, f, draw) == Some(base)
  {
    hide Offset, Float64;
    OffsetIsTheShare(base, 0.0, f);
  }

  /** Half of 100 ms is 50 ms: every delay from 50 to 150 ms, and no other, can be drawn. */
  lemma HalfJitter(f: Floats, d: int64)
    requires Float64(f)
    ensures Offset(100_000_000, 0.5, f) == 50_000_000
    ensures (exists draw: nat :: CalcDelay(100_000_000, 0.5, f, draw) == Some(d)) <==> 50_000_000 <= d <= 150_000_000
  {
    hide Float64, Offset, CalcDelay, Wrap64;
    OffsetIsTheShare(100_000_000, 0.5, f);
    ExactlyTheWindow(100_000_000, 0.5, f, d);
    if 50_000_000 <= d <= 150_000_000 {
      var k: nat := (d - 50_000_000) as int;
      assert Choice(100_000_000, 0.5, f, k) == d;
    }
  }

  lemma PositiveWidths(offset: int64)
    ensures Wrap64(2 * offset as int + 1) > 0
            <==> 0 <= offset as int < TWO_TO_THE_62 || (offset as int) < -TWO_TO_THE_62
  {
  }

  lemma OffsetSign(base: int64, jitter: real, f: Floats)
    requires 0.0 <= jitter <= 1.0 && Float64(f)
    requires -TWO_TO_THE_53 <= base as int <= TWO_TO_THE_53
    ensures Offset(base, jitter, f) >= 0 <==> base >= 0 || Product(base, jitter, f) > -1.0
  {
    hide Product;
    ProductBounds(base, jitter, f);
  }

  /** However the ends wrap, the width is one more than twice the offset, wrapped. */
  lemma WidthOfWindow(base: int64, offset: int64)
    ensures Width(Left(base, offset), Right(base, offset)) == Wrap64(2 * offset as int + 1)
  {
    hide Wrap64;
    var a, b := Left(base, offset) as int, Right(base, offset) as int;
    var i := Wraps(base as int - offset as int);
    var j := Wraps(base as int + offset as int);
    var k := Wraps(b - a);
    assert b - a == 2 * offset as int + (j - i) * TWO_TO_THE_64;
    WrapEqual(Wrap64(b - a) as int + 1, 2 * offset as int + 1, k + (j - i));
  }

  /** Wrapping takes away a multiple of 2^64. */
  lemma Wraps(x: int) returns (k: int)
    ensures Wrap64(x) as int == x + k * TWO_TO_THE_64
  {
    k := -((x + TWO_TO_THE_63) / TWO_TO_THE_64);
  }

  lemma WrapEqual(x: int, y: int, k: int)
    requires x == y + k * TWO_TO_THE_64
    ensures Wrap64(x) == Wrap64(y)
  {
  }

  /** How many delays there are to draw from. */
  function Choices(base: int64, jitter: real, f: Floats): int64
    requires 0.0 <= jitter <= 1.0 && Float64(f)
  {
    Wrap64(2 * Offset(base, jitter, f) as int + 1)
  }

  /** The k-th number of the window from its left end, wrapped around as the ends are. */
  function Choice(base: int64, jitter: real, f: Floats, k: nat): int64
    requires 0.0 <= jitter <= 1.0 && Float64(f)
  {
    Wrap64(k + base as int - Offset(base, jitter, f) as int)
  }

  /** Where the generator accepts, exactly that many consecutive numbers from the left end of the window come
      out: the whole window, unless its width has wrapped around. */
  lemma ExactlyTheWindow(base: int64, jitter: real, f: Floats, d: int64)
    requires 0.0 <= jitter <= 1.0 && Float64(f)
    ensures (exists draw: nat :: CalcDelay(base, jitter, f, draw) == Some(d))
            <==> exists k: nat :: k < Choices(base, jitter, f) as int && Choice(base, jitter, f, k) == d
    ensures var offset := Offset(base, jitter, f) as int;
            0 <= offset < TWO_TO_THE_62 ==> Choices(base, jitter, f) as int == 2 * offset + 1
  {
    hide Wrap64, Offset, Float64, CalcDelay;
    var width := Choices(base, jitter, f) as int;
    if draw: nat :| CalcDelay(base, jitter, f, draw) == Some(d) {
      WindowDraw(base, jitter, f, draw);
      var k: nat := draw % width;
      assert k < width && Choice(base, jitter, f, k) == d;
    }
    if k: nat :| k < width && Choice(base, jitter, f, k) == d {
      WindowDraw(base, jitter, f, k);
      SmallModulo(k, width);
      assert CalcDelay(base, jitter, f, k) == Some(d);
    }
  }

  lemma WindowDraw(base: int64, jitter: real, f: Floats, draw: nat)
    requires 0.0 <= jitter <= 1.0 && Float64(f)
    ensures var width := Choices(base, jitter, f) as int;
            if width <= 0 then CalcDelay(base, jitter, f, draw) == None
            else
              && 0 <= draw % width < width
              && CalcDelay(base, jitter, f, draw) == Some(Choice(base, jitter, f, draw % width))
  {
    hide Wrap64, Offset, Float64;
    var offset, width := Offset(base, jitter, f), Choices(base, jitter, f) as int;
    WidthOfWindow(base, offset);
    if width > 0 {
      var k := Wraps(base as int - offset as int);
      WrapEqual(draw % width + Left(base, offset) as int, draw % width + base as int - offset as int, k);
    }
  }

  lemma SmallModulo(x: nat, n: nat)
    requires x < n
    ensures x % n == x
  {
  }

  /** A negative delay with a jitter that reaches it makes the generator panic, on every platform. */
  lemma NegativeDelayPanics(f: Floats, draw: nat)
    requires Float64(f)
    ensures Offset(-2, 1.0, f) == -2 && Width(Left(-2, -2), Right(-2, -2)) == -3
    ensures CalcDelay(-2, 1.0, f, draw) == None
  {
  }

  /** So does a delay of 2^62 ns: the width wraps around. */
  lemma HugeDelayPanics(f: Floats, draw: nat)
    requires Float64(f)
    ensures CalcDelay(TWO_TO_THE_62 as int64, 1.0, f, draw) == None
  {
  }

  /** Between 2^53 and 2^54 float64 holds the even numbers; this rounding goes up to the next one. */
  function RoundUpToEven(x: real): real {
    if TWO_TO_THE_53 as real < x <= (2 * TWO_TO_THE_53) as real then (2 * Ceiling(x / 2.0)) as real else x
  }

  function Ceiling(x: real): int {
    -((-x).Floor)
  }

  function EvenFloats(): Floats {
    Floats(RoundUpToEven,
           x => if -TWO_TO_THE_63 <= Truncate(x) < TWO_TO_THE_63 then Truncate(x) as int64 else 0)
  }

  lemma CeilingIsLeast(x: real, n: int)
    ensures x <= n as real <==> Ceiling(x) <= n
  {
  }

  lemma RoundUpMonotone(x: real, y: real)
    requires x <= y
    ensures RoundUpToEven(x) <= RoundUpToEven(y)
  {
    hide Ceiling;
    CeilingIsLeast(x / 2.0, Ceiling(y / 2.0));
    CeilingIsLeast(y / 2.0, Ceiling(y / 2.0));
    CeilingIsLeast(x / 2.0, TWO_TO_THE_53);
  }

  lemma EvenFloatsAreFloats()
    ensures Float64(EvenFloats())
  {
    hide RoundUpToEven;
    forall x: real, y: real | x <= y ensures RoundUpToEven(x) <= RoundUpToEven(y) {
      RoundUpMonotone(x, y);
    }
    forall x: real | Representable(x) ensures RoundUpToEven(x) == x {
      RoundUpKeeps(x);
    }
  }

  lemma RoundUpKeeps(x: real)
    requires Representable(x)
    ensures RoundUpToEven(x) == x
  {
  }

  /** Beyond 2^53 ns the offset can be above the delay, and the delay drawn negative. */
  lemma OffsetCanExceedTheDelay()
    ensures Float64(EvenFloats())
    ensures Offset((TWO_TO_THE_53 + 3) as int64, 1.0, EvenFloats()) as int == TWO_TO_THE_53 + 4
    ensures CalcDelay((TWO_TO_THE_53 + 3) as int64, 1.0, EvenFloats(), 0) == Some(-1)
  {
    EvenFloatsAreFloats();
    hide Float64, Wrap64;
    var base := (TWO_TO_THE_53 + 3) as int64;
    var rounded := (TWO_TO_THE_53 + 4) as real;
    assert RoundUpToEven(base as int as real) == rounded && RoundUpToEven(rounded) == rounded;
    assert Scaled(rounded, 1.0) == rounded;
    WindowDraw(base, 1.0, EvenFloats(), 0);
  }
}
