/** Exponential backoff, plain and with jitter. Durations are whole nanoseconds; float64 is modelled by real. */
module Backoff {
  type Unit = r: real | 0.0 <= r < 1.0

  const DEFAULT_FACTOR := 2.0

  datatype Policy = Exponential(factor: real) | Jittered(factor: real)

  function Pow(f: real, n: nat): real {
    if n == 0 then 1.0 else f * Pow(f, n - 1)
  }

  function Ceil(r: real): int {
    -((-r).Floor)
  }

  function Factor(p: Policy): real {
    if p.factor <= 1.0 then DEFAULT_FACTOR else p.factor
  }

  function Base(min: int): real {
    if min <= 0 then 1.0 else min as real
  }

  /** The exponential value for retry n, before any cap. */
  function Raw(p: Policy, n: nat, min: int): real
    requires n > 0
  {
    Base(min) * Pow(Factor(p), n - 1)
  }

  function CalcBackoff(p: Policy, n: nat, min: int, max: int, draw: Unit): int {
    if n == 0 then min
    else
      var raw := Raw(p, n, min);
      match p
      case Exponential(_) =>
        if max > 0 && raw > max as real then max else raw.Floor
      case Jittered(_) =>
        var capped := if max > 0 && raw > max as real then max as real else raw;
        Jitter(draw, capped, min)
  }

  function Jitter(draw: Unit, capped: real, min: int): int {
    var jittered := draw * capped;
    Ceil(if jittered < min as real then min as real else jittered)
  }

  lemma {:induction false} PowGrows(f: real, n: nat, m: nat)
    requires f >= 1.0 && n <= m
    ensures 1.0 <= Pow(f, n) <= Pow(f, m)
  {
    if m == 0 {
    } else if n == m {
      PowGrows(f, n - 1, m - 1);
      assert f * Pow(f, n - 1) >= 1.0 * 1.0;
    } else {
      PowGrows(f, n, m - 1);
      assert f * Pow(f, m - 1) >= 1.0 * Pow(f, m - 1);
    }
  }

  /** Bernoulli's inequality, used to show that the cap is reached. */
  lemma {:induction false} PowLinear(f: real, n: nat)
    requires f >= 1.0
    ensures Pow(f, n) >= 1.0 + n as real * (f - 1.0)
  {
    if n > 0 {
      PowLinear(f, n - 1);
      PowGrows(f, 0, n - 1);
      Scale(f - 1.0, 1.0, Pow(f, n - 1));
      assert f * Pow(f, n - 1) == Pow(f, n - 1) + (f - 1.0) * Pow(f, n - 1);
      assert n as real * (f - 1.0) == (n - 1) as real * (f - 1.0) + (f - 1.0);
    }
  }

  lemma RawGrows(p: Policy, n: nat, m: nat, min: int)
    requires 0 < n <= m
    ensures Base(min) <= Raw(p, n, min) <= Raw(p, m, min)
  {
    var f := Factor(p);
    PowGrows(f, 0, n - 1);
    PowGrows(f, n - 1, m - 1);
    Scale(Base(min), 1.0, Pow(f, n - 1));
    Scale(Base(min), Pow(f, n - 1), Pow(f, m - 1));
  }

  lemma Scale(b: real, x: real, y: real)
    requires b >= 0.0 && x <= y
    ensures b * x <= b * y
  {
  }

  /** The plain policy stays inside [min, max] for every retry number exactly when the bounds are in order. */
  lemma PlainRange(f: real, min: int, max: int)
    requires 0 < min && 0 < max
    ensures min <= max <==> forall n: nat, u: Unit :: min <= CalcBackoff(Exponential(f), n, min, max, u) <= max
  {
    if min <= max {
      forall n: nat, u: Unit ensures min <= CalcBackoff(Exponential(f), n, min, max, u) <= max {
        if n > 0 { RawGrows(Exponential(f), 1, n, min); }
      }
    } else {
      assert CalcBackoff(Exponential(f), 0, min, max, 0.0) == min;
    }
  }

  /** Waiting times never shrink as retries go on, unless the floor was set above a positive cap. */
  lemma PlainMonotone(f: real, min: int, max: int)
    ensures (max <= 0 || min <= max) <==>
            forall n: nat, m: nat | n <= m ::
              CalcBackoff(Exponential(f), n, min, max, 0.0) <= CalcBackoff(Exponential(f), m, min, max, 0.0)
  {
    var p := Exponential(f);
    if max <= 0 || min <= max {
      forall n: nat, m: nat | n <= m
        ensures CalcBackoff(p, n, min, max, 0.0) <= CalcBackoff(p, m, min, max, 0.0)
      {
        if n > 0 {
          RawGrows(p, n, m, min);
        } else if m > 0 {
          RawGrows(p, 1, m, min);
        }
      }
    } else {
      assert Pow(Factor(p), 0) == 1.0;
      assert Raw(p, 1, min) == Base(min);
      assert CalcBackoff(p, 0, min, max, 0.0) > CalcBackoff(p, 1, min, max, 0.0);
    }
  }

  lemma CeilOrder(r: real, k: int)
    ensures r <= k as real ==> Ceil(r) <= k
    ensures k as real <= r ==> k <= Ceil(r)
    ensures r <= Ceil(r) as real
  {
  }

  lemma Exceeds(d: real, goal: real) returns (k: nat)
    requires d > 0.0 && goal > 0.0
    ensures goal <= k as real * d
  {
    var q := goal / d;
    assert q * d == goal;
    assert q >= 0.0;
    CeilOrder(q, 0);
    k := Ceil(q);
    Scale(d, q, k as real);
  }

  lemma RawAbove(p: Policy, k: nat, min: int, goal: real)
    requires 0 < min && goal <= k as real * (Factor(p) - 1.0)
    ensures Raw(p, k + 1, min) > goal
  {
    PowLinear(Factor(p), k);
    var x := Pow(Factor(p), k);
    var b := Base(min);
    assert x > goal && x >= 0.0 && b >= 1.0 by { PowGrows(Factor(p), 0, k); }
    Scale(x, 1.0, b);
    assert b * x == x * b;
    assert Raw(p, k + 1, min) == b * x;
  }

  /** The cap is reached, and from then on every wait equals it. */
  lemma PlainReachesCap(f: real, min: int, max: int) returns (n: nat)
    requires 0 < min <= max
    ensures forall m: nat | n <= m :: CalcBackoff(Exponential(f), m, min, max, 0.0) == max
  {
    var p := Exponential(f);
    var k := Exceeds(Factor(p) - 1.0, max as real);
    n := k + 1;
    RawAbove(p, k, min, max as real);
    forall m: nat | n <= m ensures CalcBackoff(p, m, min, max, 0.0) == max {
      RawGrows(p, n, m, min);
    }
  }

  lemma JitterBounds(draw: Unit, capped: real, min: int, max: int)
    requires 0.0 <= capped <= max as real && min <= max
    ensures min <= Jitter(draw, capped, min) <= max
  {
    Scale(capped, draw, 1.0);
    var x := draw * capped;
    assert x == capped * draw;
    CeilOrder(x, max);
    CeilOrder(x, min);
    CeilOrder(min as real, min);
  }

  /** With jitter the wait stays inside [min, max] for every random draw, although it is rounded up. */
  lemma JitterRange(f: real, n: nat, min: int, max: int, draw: Unit)
    requires 0 < min <= max
    ensures min <= CalcBackoff(Jittered(f), n, min, max, draw) <= max
  {
    if n > 0 {
      RawGrows(Jittered(f), 1, n, min);
      var raw := Raw(Jittered(f), n, min);
      JitterBounds(draw, if raw > max as real then max as real else raw, min, max);
    }
  }

  /** The exponential value for retry n, below a positive cap. */
  function Capped(p: Policy, n: nat, min: int, max: int): real
    requires n > 0
  {
    var raw := Raw(p, n, min);
    if max > 0 && raw > max as real then max as real else raw
  }

  lemma JitteredIs(f: real, n: nat, min: int, max: int, draw: Unit)
    requires n > 0
    ensures CalcBackoff(Jittered(f), n, min, max, draw) == Jitter(draw, Capped(Jittered(f), n, min, max), min)
  {
  }

  lemma ExactCeil(x: real, v: int)
    requires (v - 1) as real < x <= v as real
    ensures Ceil(x) == v
  {
  }

  lemma SignOf(q: real, b: real)
    requires b > 0.0
    ensures q * b >= 0.0 ==> q >= 0.0
    ensures q * b < b ==> q < 1.0
  {
  }

  lemma DrawFor(x: real, capped: real) returns (draw: Unit)
    requires 0.0 <= x < capped
    ensures draw * capped == x
  {
    var q := x / capped;
    assert q * capped == x;
    SignOf(q, capped);
    draw := q;
  }

  /** A draw that gives the wait v. */
  lemma JitterHits(capped: real, min: int, v: int) returns (draw: Unit)
    requires 0 < min && min <= v <= Ceil(capped)
    ensures Jitter(draw, capped, min) == v
  {
    var x := if v as real < capped then v as real else ((v - 1) as real + capped) / 2.0;
    draw := DrawFor(x, capped);
    ExactCeil(if x < min as real then min as real else x, v);
  }

  /** The values the jittered policy takes over all draws are exactly those from min up to the
      capped exponential, rounded up. */
  lemma JitterSpreads(f: real, n: nat, min: int, max: int, v: int)
    requires n > 0 && 0 < min && (max <= 0 || min <= max)
    ensures (exists draw: Unit :: CalcBackoff(Jittered(f), n, min, max, draw) == v) <==>
            min <= v <= Ceil(Capped(Jittered(f), n, min, max))
  {
    var capped := Capped(Jittered(f), n, min, max);
    RawGrows(Jittered(f), 1, n, min);
    if min <= v <= Ceil(capped) {
      var draw := JitterHits(capped, min, v);
      JitteredIs(f, n, min, max, draw);
    }
    CeilOrder(capped, Ceil(capped));
    CeilOrder(capped, min);
    forall draw: Unit ensures min <= CalcBackoff(Jittered(f), n, min, max, draw) <= Ceil(capped) {
      JitteredIs(f, n, min, max, draw);
      JitterBounds(draw, capped, min, Ceil(capped));
    }
  }

  /** The grown value after n retries, with two for a factor that does not grow. */
  function Grown(f: real, n: nat, min: int): real
    requires n > 0
  {
    min as real * Pow(if f > 1.0 then f else 2.0, n - 1)
  }

  /** A plain wait in so many words: min at first, then min times the configured factor once more
      per retry, in whole units, and never above a positive cap. */
  predicate PlainWait(f: real, n: nat, min: int, max: int, d: int) {
    if n == 0 then d == min
    else
      var x := Grown(f, n, min);
      if max > 0 && x > max as real then d == max else d as real <= x < (d + 1) as real
  }

  /** A wait with jitter: between min and that same value, rounded up. */
  predicate JitteredWait(f: real, n: nat, min: int, max: int, d: int) {
    if n == 0 then d == min
    else min <= d && (d - 1) as real < Grown(f, n, min) && (max > 0 ==> d <= max)
  }

  lemma WaitsPlain(f: real, n: nat, min: int, max: int, draw: Unit, d: int)
    requires 0 < min
    ensures CalcBackoff(Exponential(f), n, min, max, draw) == d <==> PlainWait(f, n, min, max, d)
  {
    if n > 0 { assert Raw(Exponential(f), n, min) == Grown(f, n, min); }
  }

  lemma WaitsJittered(f: real, n: nat, min: int, max: int, d: int)
    requires 0 < min && (max <= 0 || min <= max)
    ensures (exists draw: Unit :: CalcBackoff(Jittered(f), n, min, max, draw) == d) <==>
            JitteredWait(f, n, min, max, d)
  {
    if n == 0 {
      assert CalcBackoff(Jittered(f), 0, min, max, 0.0) == min;
    } else {
      JitterSpreads(f, n, min, max, d);
      var capped := Capped(Jittered(f), n, min, max);
      assert Raw(Jittered(f), n, min) == Grown(f, n, min);
      assert Ceil(capped) as real < capped + 1.0 && capped <= Ceil(capped) as real;
    }
  }

  /** The grown value under a positive cap. */
  function GrownUnder(f: real, n: nat, min: int, max: int): real
    requires n > 0
  {
    if max > 0 && Grown(f, n, min) > max as real then max as real else Grown(f, n, min)
  }

  /** Rounded up. */
  predicate UpTo(x: real, d: int) {
    (d - 1) as real < x <= d as real
  }

  lemma CeilIs(x: real, d: int)
    ensures Ceil(x) == d <==> UpTo(x, d)
  {
  }

  /** The part of top that the draw gives, at least min, rounded up. */
  predicate Part(draw: Unit, top: real, min: int, d: int) {
    UpTo(if draw * top < min as real then min as real else draw * top, d)
  }

  lemma JitterIsPart(draw: Unit, top: real, min: int, d: int)
    ensures Jitter(draw, top, min) == d <==> Part(draw, top, min, d)
  {
    var x := draw * top;
    CeilIs(if x < min as real then min as real else x, d);
  }

  /** The wait with jitter that one draw gives: its part of the grown value under the cap. */
  predicate DrawnWait(f: real, n: nat, min: int, max: int, draw: Unit, d: int) {
    if n == 0 then d == min else Part(draw, GrownUnder(f, n, min, max), min, d)
  }

  lemma WaitsDrawn(f: real, n: nat, min: int, max: int, draw: Unit, d: int)
    requires 0 < min
    ensures CalcBackoff(Jittered(f), n, min, max, draw) == d <==> DrawnWait(f, n, min, max, draw, d)
  {
    if n > 0 {
      JitteredIs(f, n, min, max, draw);
      GrownIsRaw(Jittered(f), n, min, max);
      JitterIsPart(draw, GrownUnder(f, n, min, max), min, d);
    }
  }

  lemma GrownIsRaw(p: Policy, n: nat, min: int, max: int)
    requires n > 0
    ensures Capped(p, n, min, max) == GrownUnder(p.factor, n, if min <= 0 then 1 else min, max)
  {
  }

  /** A floor that is not positive counts as one from the first retry on. */
  lemma NoFloorPlain(f: real, n: nat, min: int, max: int, draw: Unit)
    requires min <= 0 && n > 0
    ensures PlainWait(f, n, 1, max, CalcBackoff(Exponential(f), n, min, max, draw))
  {
    assert Raw(Exponential(f), n, min) == Raw(Exponential(f), n, 1);
    WaitsPlain(f, n, 1, max, draw, CalcBackoff(Exponential(f), n, 1, max, draw));
  }

  lemma NoFloorJittered(f: real, n: nat, min: int, max: int, draw: Unit)
    requires min <= 0 && n > 0
    ensures UpTo(draw * GrownUnder(f, n, 1, max), CalcBackoff(Jittered(f), n, min, max, draw))
  {
    var top := GrownUnder(f, n, 1, max);
    JitteredIs(f, n, min, max, draw);
    GrownIsRaw(Jittered(f), n, min, max);
    assert top >= 0.0 by { RawGrows(Jittered(f), n, n, min); }
    Product(draw, top);
    CeilIs(draw * top, Ceil(draw * top));
  }

  lemma Product(x: real, y: real)
    requires x >= 0.0 && y >= 0.0
    ensures x * y >= 0.0
  {
  }

  /** Total wait of a retrier that uses up N attempts: it also sleeps after the last failure. */
  function SleepTotal(p: Policy, from: nat, n: nat, min: int, max: int, draws: nat -> Unit): int
    requires from <= n
    decreases n - from
  {
    if from == n then 0 else CalcBackoff(p, from, min, max, draws(from)) + SleepTotal(p, from + 1, n, min, max, draws)
  }

  lemma CapBound(p: Policy, n: nat, min: int, max: int, draw: Unit)
    requires 0 < min <= max
    ensures 0 < CalcBackoff(p, n, min, max, draw) <= max
  {
    match p
    case Exponential(f) => PlainRange(f, min, max);
    case Jittered(f) => JitterRange(f, n, min, max, draw);
  }

  function Doubling(n: nat): nat {
    if n == 0 then 1 else 2 * Doubling(n - 1)
  }

  lemma {:induction false} PowTwo(n: nat)
    ensures Pow(2.0, n) == Doubling(n) as real
  {
    if n > 0 { PowTwo(n - 1); }
  }

  lemma UncappedWait(n: nat, min: int, max: int, draw: Unit)
    requires 0 < min && max <= 0
    ensures CalcBackoff(Exponential(2.0), n, min, max, draw) == if n == 0 then min else min * Doubling(n - 1)
  {
    if n > 0 {
      PowTwo(n - 1);
      assert Raw(Exponential(2.0), n, min) == (min * Doubling(n - 1)) as real;
    }
  }

  /** Uncapped and with factor two, N attempts wait min * 2^(N-1) in all. */
  lemma {:induction false} DoublingTotal(from: nat, n: nat, min: int, max: int, draws: nat -> Unit)
    requires 0 < min && max <= 0 && from <= n && 0 < n
    ensures SleepTotal(Exponential(2.0), from, n, min, max, draws) ==
            if from == 0 then min * Doubling(n - 1) else min * Doubling(n - 1) - min * Doubling(from - 1)
    decreases n - from
  {
    if from < n {
      DoublingTotal(from + 1, n, min, max, draws);
      UncappedWait(from, min, max, draws(from));
      if from > 0 {
        assert min * Doubling(from) == 2 * (min * Doubling(from - 1));
      }
    }
  }
}
