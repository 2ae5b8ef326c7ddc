/** The per-CPU load samples (core.c): decay over missed ticks and convergence under constant load. */
module CpuLoad {
  import opened Arith

  const CPU_LOAD_IDX_MAX: nat := 5
  const DEGRADE_SHIFT: nat := 7
  const DEGRADE_SCALE: nat := 128   // 1 << DEGRADE_SHIFT
  const DEGRADE_ZERO_TICKS: seq<nat> := [0, 8, 32, 64, 128]
  const DEGRADE_FACTOR: seq<seq<nat>> := [
    [0, 0, 0, 0, 0, 0, 0, 0],
    [64, 32, 8, 0, 0, 0, 0, 0],
    [96, 72, 40, 12, 1, 0, 0, 0],
    [112, 98, 75, 43, 15, 1, 0, 0],
    [120, 112, 98, 76, 45, 16, 2, 0]]

  lemma Pow2Values()
    ensures Pow2(0) == 1 && Pow2(1) == 2 && Pow2(2) == 4 && Pow2(3) == 8 && Pow2(4) == 16
    ensures Pow2(5) == 32 && Pow2(6) == 64 && Pow2(7) == 128
  {
  }

  /** One table factor on the 128-point scale. */
  function Degraded(load: nat, factor: nat): nat {
    Quot(Times(load, factor), DEGRADE_SCALE)
  }

  /** The loop of decay_load_missed; the precondition keeps column `j` inside the table. */
  function DecayLoop(load: nat, missed: nat, idx: nat, j: nat): nat
    requires idx < CPU_LOAD_IDX_MAX && j <= DEGRADE_SHIFT && missed < Pow2(DEGRADE_SHIFT - j)
    decreases missed
  {
    if missed == 0 then load
    else
      var next := if missed % 2 == 1 then Degraded(load, DEGRADE_FACTOR[idx][j]) else load;
      DecayLoop(next, missed / 2, idx, j + 1)
  }

  /** decay_load_missed */
  function DecayLoadMissed(load: nat, missed: nat, idx: nat): nat
    requires idx < CPU_LOAD_IDX_MAX
  {
    Pow2Values();
    if missed == 0 then load
    else if missed >= DEGRADE_ZERO_TICKS[idx] then 0
    else if idx == 1 then Quot(load, Pow2(missed))
    else DecayLoop(load, missed, idx, 0)
  }

  // ---------------------------------------------------------------- the decay never overshoots

  /** (2^idx - 1) / 2^idx, the part of the load that one idle tick leaves. */
  ghost function Ratio(idx: nat): real
    requires 1 <= idx <= 4
  {
    if idx == 1 then 0.5 else if idx == 2 then 0.75 else if idx == 3 then 0.875 else 0.9375
  }

  lemma RatioIs(idx: nat)
    requires 1 <= idx <= 4
    ensures Mul(Pow2(idx) as real, Ratio(idx)) == (Pow2(idx) - 1) as real
  {
    Pow2Values();
  }

  const SCALE: nat := 1048576
  /** Lower bounds for 2^20 * Ratio(idx)^(2^j), each row obtained by squaring. */
  const LOWER: seq<seq<nat>> := [
    [786432, 589824, 331776, 104976, 10509, 105, 0],
    [917504, 802816, 614656, 360300, 123802, 14616, 203],
    [983040, 921600, 810000, 625705, 373369, 132946, 16855]]

  lemma LowerSquares(idx: nat, j: nat)
    requires 2 <= idx <= 4 && j < 6
    ensures LOWER[idx - 2][j + 1] * SCALE <= LOWER[idx - 2][j] * LOWER[idx - 2][j]
  {
  }

  lemma FactorBelowLower(idx: nat, j: nat)
    requires 2 <= idx <= 4 && j < 7
    ensures DEGRADE_FACTOR[idx][j] * 8192 <= LOWER[idx - 2][j]
  {
  }

  /** If a/s <= p and b*s <= a*a then b/s <= p*p. */
  lemma SquareBound(s: real, p: real, a: real, b: real)
    requires s > 0.0 && a >= 0.0 && p >= 0.0
    requires a <= Mul(s, p) && Mul(b, s) <= Mul(a, a)
    ensures b <= Mul(s, Mul(p, p))
  {
    hide Mul;
    var sp := Mul(s, p);
    NonNegProduct(a, sp - a);
    NonNegProduct(sp, sp - a);
    Distribute(a, sp, a);
    Distribute(sp, sp, a);
    Commute(a, sp);
    assert Mul(a, a) <= Mul(sp, sp);
    Associate(s, p, sp);
    Associate(p, s, p);
    Commute(p, s);
    Associate(s, p, p);
    var q := Mul(s, Mul(p, p));
    assert Mul(sp, sp) == Mul(s, q);
    Commute(b, s);
    Distribute(s, b, q);
    if b > q { PositiveProduct(s, b - q); }
  }

  lemma {:induction false} LowerOk(idx: nat, j: nat)
    requires 2 <= idx <= 4 && j < 7
    ensures LOWER[idx - 2][j] as real <= Mul(SCALE as real, RPow(Ratio(idx), Pow2(j)))
  {
    var y := Ratio(idx);
    if j == 0 {
      Units(y);
      assert RPow(y, 1) == Mul(y, RPow(y, 0));
      assert Pow2(0) == 1;
    } else {
      LowerOk(idx, j - 1);
      LowerSquares(idx, j - 1);
      var a, b := LOWER[idx - 2][j - 1], LOWER[idx - 2][j];
      OfInts(b, SCALE);
      OfInts(a, a);
      RPowUnit(y, Pow2(j - 1));
      RPowAdd(y, Pow2(j - 1), Pow2(j - 1));
      SquareBound(SCALE as real, RPow(y, Pow2(j - 1)), a as real, b as real);
      assert Pow2(j) == Pow2(j - 1) + Pow2(j - 1);
    }
  }

  /** Every table entry is at most the exact factor on the 128-point scale. */
  lemma FactorOk(idx: nat, j: nat)
    requires 2 <= idx <= 4 && j < 7
    ensures DEGRADE_FACTOR[idx][j] as real <= Mul(128.0, RPow(Ratio(idx), Pow2(j)))
  {
    LowerOk(idx, j);
    FactorBelowLower(idx, j);
    ScaleDown(RPow(Ratio(idx), Pow2(j)));
  }

  lemma ScaleDown(p: real)
    ensures Mul(SCALE as real, p) == 8192.0 * Mul(128.0, p)
  {
  }

  lemma FactorStep(load: nat, factor: nat, p: real)
    requires factor as real <= Mul(128.0, p)
    ensures Degraded(load, factor) as real <= Mul(load as real, p)
  {
    var r := Degraded(load, factor);
    DivBounds(load * factor, DEGRADE_SCALE);
    OfInts(load, factor);
    hide Mul;
    var l := load as real;
    NonNegProduct(l, Mul(128.0, p) - factor as real);
    Distribute(l, Mul(128.0, p), factor as real);
    Associate(l, 128.0, p);
    Commute(l, 128.0);
    Associate(128.0, l, p);
    Literal128(Mul(l, p));
  }

  lemma Literal128(x: real)
    ensures Mul(128.0, x) == 128.0 * x
  {
  }

  lemma ChainBound(l: real, next: real, p: real, rest: real)
    requires next <= Mul(l, p) && rest >= 0.0
    ensures Mul(next, rest) <= Mul(l, Mul(p, rest))
  {
    hide Mul;
    NonNegProduct(rest, Mul(l, p) - next);
    Distribute(rest, Mul(l, p), next);
    Commute(rest, next);
    Commute(rest, Mul(l, p));
    Associate(l, p, rest);
  }

  /** One bit of the missed ticks: the table's factor, then `k` more ticks. */
  lemma DecayStep(load: nat, idx: nat, j: nat, k: nat)
    requires 2 <= idx <= 4 && j < DEGRADE_SHIFT
    ensures Mul(Degraded(load, DEGRADE_FACTOR[idx][j]) as real, RPow(Ratio(idx), k))
            <= Mul(load as real, RPow(Ratio(idx), Pow2(j) + k))
  {
    var y := Ratio(idx);
    hide Mul, Pow2, Ratio;
    FactorOk(idx, j);
    var factor := DEGRADE_FACTOR[idx][j];
    FactorStep(load, factor, RPow(y, Pow2(j)));
    assert 0.0 <= y <= 1.0 by { RatioIs(idx); RatioUnit(idx); }
    RPowUnit(y, k);
    RPowAdd(y, Pow2(j), k);
    ChainBound(load as real, Degraded(load, factor) as real, RPow(y, Pow2(j)), RPow(y, k));
  }

  lemma RatioUnit(idx: nat)
    requires 1 <= idx < CPU_LOAD_IDX_MAX
    ensures 0.0 <= Ratio(idx) <= 1.0
  {
  }

  /** The ticks that the bits of `missed` stand for from column `j` on. */
  ghost function TicksFrom(j: nat, missed: nat): nat {
    Times(Pow2(j), missed)
  }

  lemma {:induction false} DecayLoopBound(load: nat, missed: nat, idx: nat, j: nat)
    requires 2 <= idx <= 4 && j <= DEGRADE_SHIFT && missed < Pow2(DEGRADE_SHIFT - j)
    ensures DecayLoop(load, missed, idx, j) as real <= Mul(load as real, RPow(Ratio(idx), TicksFrom(j, missed)))
    decreases missed
  {
    hide Mul, Ratio, TicksFrom, Degraded;
    SplitBit(j, missed);
    if missed == 0 {
      assert RPow(Ratio(idx), 0) == 1.0;
      Units(load as real);
    } else {
      hide RPow;
      var odd := missed % 2 == 1;
      var next := if odd then Degraded(load, DEGRADE_FACTOR[idx][j]) else load;
      DecayLoopBound(next, missed / 2, idx, j + 1);
      if odd { DecayStep(load, idx, j, TicksFrom(j + 1, missed / 2)); }
    }
  }

  lemma SplitBit(j: nat, missed: nat)
    ensures TicksFrom(j, missed) == if missed == 0 then 0 else (if missed % 2 == 1 then Pow2(j) else 0) + TicksFrom(j + 1, missed / 2)
    ensures TicksFrom(0, missed) == missed
  {
    SplitProduct(Pow2(j), missed / 2, missed);
    if missed == 0 { SplitProduct(Pow2(j), 0, 0); }
    assert Pow2(0) == 1 && Pow2(j + 1) == 2 * Pow2(j);
  }

  lemma SplitProduct(p: nat, h: nat, n: nat)
    requires n == 2 * h || n == 2 * h + 1
    ensures p * n == (if n == 2 * h then 0 else p) + (2 * p) * h
    ensures n == 0 ==> p * n == 0
  {
    calc {
      (2 * p) * h;
      2 * (p * h);
      p * (2 * h);
    }
  }

  lemma {:induction false} HalfPower(n: nat)
    ensures Mul(Pow2(n) as real, RPow(0.5, n)) == 1.0
  {
    if n > 0 {
      HalfPower(n - 1);
      var p, r := Pow2(n - 1) as real, RPow(0.5, n - 1);
      HalfDouble(p, r);
    }
  }

  lemma HalfDouble(p: real, r: real)
    ensures Mul(2.0 * p, Mul(0.5, r)) == Mul(p, r)
  {
  }

  lemma ShiftBound(load: nat, n: nat)
    ensures (load / Pow2(n)) as real <= Mul(load as real, RPow(0.5, n))
  {
    var d := Pow2(n);
    var q := load / d;
    DivBounds(load, d);
    OfInts(q, d);
    HalfPower(n);
    hide Mul;
    var p := RPow(0.5, n);
    RPowUnit(0.5, n);
    NonNegProduct(p, load as real - Mul(q as real, d as real));
    Distribute(p, load as real, Mul(q as real, d as real));
    Commute(p, load as real);
    Commute(p, Mul(q as real, d as real));
    Associate(q as real, d as real, p);
    Units(q as real);
  }

  /** decay_load_missed never exceeds the exact decay ((2^idx - 1) / 2^idx)^missed of the load. */
  lemma DecayBound(load: nat, missed: nat, idx: nat)
    requires 1 <= idx <= 4
    ensures DecayLoadMissed(load, missed, idx) as real <= Mul(load as real, RPow(Ratio(idx), missed))
  {
    RPowUnit(Ratio(idx), missed);
    NonNegProduct(load as real, RPow(Ratio(idx), missed));
    Pow2Values();
    if missed == 0 {
      Units(load as real);
    } else if missed < DEGRADE_ZERO_TICKS[idx] {
      if idx == 1 {
        ShiftBound(load, missed);
      } else {
        DecayLoopBound(load, missed, idx, 0);
        SplitBit(0, missed);
      }
    }
  }

  // ---------------------------------------------------------------- nor undershoots by much

  /** Upper bounds for 2^20 * Ratio(idx)^(2^j), obtained in the same way. */
  const UPPER: seq<seq<nat>> := [
    [786432, 589824, 331776, 104976, 10510, 106, 1, 1],
    [917504, 802816, 614656, 360301, 123803, 14618, 204, 1],
    [983040, 921600, 810000, 625706, 373372, 132949, 16857, 271]]

  lemma UpperSquares(idx: nat, j: nat)
    requires 2 <= idx <= 4 && j < 7
    ensures UPPER[idx - 2][j] * UPPER[idx - 2][j] <= UPPER[idx - 2][j + 1] * SCALE
  {
  }

  lemma FactorAboveUpper(idx: nat, j: nat)
    requires 2 <= idx <= 4 && j < 8
    ensures UPPER[idx - 2][j] < (DEGRADE_FACTOR[idx][j] + 1) * 8192
  {
  }

  lemma SquareBoundAbove(s: real, p: real, a: real, b: real)
    requires s > 0.0 && p >= 0.0 && Mul(s, p) <= a && Mul(a, a) <= Mul(b, s)
    ensures Mul(s, Mul(p, p)) <= b
  {
    hide Mul;
    var sp := Mul(s, p);
    NonNegProduct(s, p);
    NonNegProduct(a, a - sp);
    NonNegProduct(sp, a - sp);
    Distribute(a, a, sp);
    Distribute(sp, a, sp);
    Commute(a, sp);
    assert Mul(sp, sp) <= Mul(a, a);
    Associate(s, p, sp);
    Associate(p, s, p);
    Commute(p, s);
    Associate(s, p, p);
    var q := Mul(s, Mul(p, p));
    assert Mul(sp, sp) == Mul(s, q);
    Commute(b, s);
    Distribute(s, q, b);
    if q > b { PositiveProduct(s, q - b); }
  }

  lemma {:induction false} UpperOk(idx: nat, j: nat)
    requires 2 <= idx <= 4 && j < 8
    ensures Mul(SCALE as real, RPow(Ratio(idx), Pow2(j))) <= UPPER[idx - 2][j] as real
  {
    var y := Ratio(idx);
    if j == 0 {
      Units(y);
      assert RPow(y, 1) == Mul(y, RPow(y, 0));
      assert Pow2(0) == 1;
    } else {
      UpperOk(idx, j - 1);
      UpperSquares(idx, j - 1);
      var a, b := UPPER[idx - 2][j - 1], UPPER[idx - 2][j];
      OfInts(b, SCALE);
      OfInts(a, a);
      RPowUnit(y, Pow2(j - 1));
      RPowAdd(y, Pow2(j - 1), Pow2(j - 1));
      SquareBoundAbove(SCALE as real, RPow(y, Pow2(j - 1)), a as real, b as real);
      assert Pow2(j) == Pow2(j - 1) + Pow2(j - 1);
    }
  }

  /** Every table entry is less than one below the exact factor on the 128-point scale: that factor rounded down. */
  lemma FactorTight(idx: nat, j: nat)
    requires 2 <= idx <= 4 && j < 8
    ensures Mul(128.0, RPow(Ratio(idx), Pow2(j))) < (DEGRADE_FACTOR[idx][j] + 1) as real
  {
    UpperOk(idx, j);
    FactorAboveUpper(idx, j);
    ScaleDown(RPow(Ratio(idx), Pow2(j)));
  }

  /** What `k` table lookups can lose: each a 128th of the load and one for the division. */
  ghost function Slack(k: nat, load: nat): real {
    if k == 0 then 0.0 else Slack(k - 1, load) + load as real / 128.0 + 1.0
  }

  lemma {:induction false} SlackGrows(k: nat, a: nat, b: nat)
    requires a <= b
    ensures 0.0 <= Slack(k, a) <= Slack(k, b)
  {
    if k > 0 { SlackGrows(k - 1, a, b); }
  }

  lemma FactorStepTight(load: nat, factor: nat, p: real)
    requires Mul(128.0, p) <= (factor + 1) as real
    ensures Mul(load as real, p) <= Degraded(load, factor) as real + load as real / 128.0 + 1.0
  {
    var l, f := load as real, factor as real;
    DivBounds(load * factor, DEGRADE_SCALE);
    OfInts(load, factor);
    hide Mul;
    NonNegProduct(l, f + 1.0 - Mul(128.0, p));
    Distribute(l, f + 1.0, Mul(128.0, p));
    Distribute(l, f, 1.0);
    Units(l);
    Associate(l, 128.0, p);
    Commute(l, 128.0);
    Associate(128.0, l, p);
    Literal128(Mul(l, p));
  }

  lemma DegradedSmaller(load: nat, factor: nat)
    requires factor <= DEGRADE_SCALE
    ensures Degraded(load, factor) <= load
  {
    MulMono(factor, DEGRADE_SCALE, load);
    DivBounds(load * factor, DEGRADE_SCALE);
  }

  lemma ChainTight(l: real, next: real, p: real, rest: real, e: real)
    requires Mul(l, p) <= next + e && 0.0 <= rest <= 1.0 && e >= 0.0
    ensures Mul(l, Mul(p, rest)) <= Mul(next, rest) + e
  {
    hide Mul;
    NonNegProduct(rest, next + e - Mul(l, p));
    Distribute(rest, next + e, Mul(l, p));
    Distribute(rest, next, e);
    FactorBound(e, rest);
    Commute(rest, e);
    Commute(rest, next);
    Commute(rest, Mul(l, p));
    Associate(l, p, rest);
  }

  lemma DecayStepTight(load: nat, idx: nat, j: nat, k: nat)
    requires 2 <= idx <= 4 && j < DEGRADE_SHIFT
    ensures Mul(load as real, RPow(Ratio(idx), Pow2(j) + k))
            <= Mul(Degraded(load, DEGRADE_FACTOR[idx][j]) as real, RPow(Ratio(idx), k)) + load as real / 128.0 + 1.0
  {
    var y := Ratio(idx);
    RatioUnit(idx);
    hide Mul, Pow2, Ratio;
    FactorTight(idx, j);
    var factor := DEGRADE_FACTOR[idx][j];
    FactorStepTight(load, factor, RPow(y, Pow2(j)));
    RPowUnit(y, k);
    RPowAdd(y, Pow2(j), k);
    ChainTight(load as real, Degraded(load, factor) as real, RPow(y, Pow2(j)), RPow(y, k), load as real / 128.0 + 1.0);
  }

  lemma FactorSmall(idx: nat, j: nat)
    requires 2 <= idx <= 4 && j < DEGRADE_SHIFT
    ensures DEGRADE_FACTOR[idx][j] <= DEGRADE_SCALE
  {
  }

  lemma SlackStep(k: nat, load: nat)
    ensures Slack(k + 1, load) == Slack(k, load) + load as real / 128.0 + 1.0
  {
  }

  lemma {:induction false} DecayLoopTight(load: nat, missed: nat, idx: nat, j: nat)
    requires 2 <= idx <= 4 && j <= DEGRADE_SHIFT && missed < Pow2(DEGRADE_SHIFT - j)
    ensures Mul(load as real, RPow(Ratio(idx), TicksFrom(j, missed)))
            <= DecayLoop(load, missed, idx, j) as real + Slack(DEGRADE_SHIFT - j, load)
    decreases missed
  {
    hide Mul, Ratio, TicksFrom, Degraded, Slack;
    SplitBit(j, missed);
    SlackGrows(DEGRADE_SHIFT - j, load, load);
    if missed == 0 {
      assert RPow(Ratio(idx), 0) == 1.0;
      Units(load as real);
    } else {
      hide RPow;
      var left := DEGRADE_SHIFT - j - 1;
      SlackStep(left, load);
      if missed % 2 == 1 {
        var next := Degraded(load, DEGRADE_FACTOR[idx][j]);
        DecayLoopTight(next, missed / 2, idx, j + 1);
        DecayStepTight(load, idx, j, TicksFrom(j + 1, missed / 2));
        FactorSmall(idx, j);
        DegradedSmaller(load, DEGRADE_FACTOR[idx][j]);
        SlackGrows(left, next, load);
      } else {
        DecayLoopTight(load, missed / 2, idx, j + 1);
      }
    }
  }

  /** From DEGRADE_ZERO_TICKS on, less than a 128th is left. */
  lemma CutOff(load: nat, missed: nat, idx: nat)
    requires 1 <= idx <= 4 && missed >= DEGRADE_ZERO_TICKS[idx]
    ensures Mul(load as real, RPow(Ratio(idx), missed)) <= load as real / 128.0
  {
    var y, z := Ratio(idx), DEGRADE_ZERO_TICKS[idx];
    RatioUnit(idx);
    Pow2Values();
    ZeroTicks(idx);
    RPowUnit(y, z);
    RPowUnit(y, missed - z);
    RPowAdd(y, z, missed - z);
    var a, b := RPow(y, z), RPow(y, missed - z);
    hide Mul, Ratio, RPow;
    FactorBound(a, b);
    Literal128(a);
    NonNegProduct(load as real, 1.0 / 128.0 - Mul(a, b));
    Distribute(load as real, 1.0 / 128.0, Mul(a, b));
    By128(load as real);
  }

  lemma By128(x: real)
    ensures Mul(x, 1.0 / 128.0) == x / 128.0
  {
  }

  lemma ZeroTicks(idx: nat)
    requires 1 <= idx <= 4
    ensures Mul(128.0, RPow(Ratio(idx), DEGRADE_ZERO_TICKS[idx])) <= 1.0
  {
    Pow2Values();
    if idx == 1 {
      HalfPower(8);
      assert Pow2(8) == 256;
      RPowUnit(0.5, 8);
    } else {
      FactorTight(idx, idx + 3);
      assert Pow2(idx + 3) == DEGRADE_ZERO_TICKS[idx] && DEGRADE_FACTOR[idx][idx + 3] == 0;
    }
  }

  lemma ShiftTight(load: nat, n: nat)
    ensures Mul(load as real, RPow(0.5, n)) <= (load / Pow2(n)) as real + 1.0
  {
    var d := Pow2(n);
    var q := load / d;
    DivBounds(load, d);
    OfInts(q + 1, d);
    NextMultiple(q, d);
    HalfPower(n);
    hide Mul, Pow2, RPow;
    var p := RPow(0.5, n);
    var m := Mul((q + 1) as real, d as real);
    RPowUnit(0.5, n);
    NonNegProduct(p, m - load as real);
    Distribute(p, m, load as real);
    Commute(p, load as real);
    Commute(p, m);
    Associate((q + 1) as real, d as real, p);
    Units((q + 1) as real);
  }

  /** decay_load_missed loses at most seven times a 128th of the load plus one against the exact decay. */
  lemma DecayTight(load: nat, missed: nat, idx: nat)
    requires 1 <= idx <= 4
    ensures Mul(load as real, RPow(Ratio(idx), missed))
            <= DecayLoadMissed(load, missed, idx) as real + 7.0 * (load as real / 128.0 + 1.0)
  {
    Pow2Values();
    if missed == 0 {
      assert RPow(Ratio(idx), 0) == 1.0;
      Units(load as real);
    } else if missed >= DEGRADE_ZERO_TICKS[idx] {
      CutOff(load, missed, idx);
    } else if idx == 1 {
      ShiftTight(load, missed);
    } else {
      DecayLoopTight(load, missed, idx, 0);
      SplitBit(0, missed);
      SlackSeven(load);
    }
  }

  lemma SlackSeven(load: nat)
    ensures Slack(7, load) == 7.0 * (load as real / 128.0 + 1.0)
  {
    var step := load as real / 128.0 + 1.0;
    assert Slack(1, load) == step;
    assert Slack(2, load) == 2.0 * step;
    assert Slack(3, load) == 3.0 * step;
    assert Slack(4, load) == 4.0 * step;
    assert Slack(5, load) == 5.0 * step;
    assert Slack(6, load) == 6.0 * step;
  }

  // ---------------------------------------------------------------- one update per tick

  /** The new sample of update_cpu_load once the old one has decayed; `scale` is 1 << i. */
  function Averaged(prior: nat, load: nat, scale: nat): nat
    requires scale >= 2
  {
    Quot(Times(prior, scale - 1) + (if load > prior then load + scale - 1 else load), scale)
  }

  /** The mean ((scale - 1) * prior + load) / scale, rounded towards the load. */
  ghost predicate RoundedMean(a: nat, prior: nat, load: nat, scale: nat)
    requires scale >= 2
  {
    var sum := prior * (scale - 1) + load;
    if load > prior then a * scale - scale < sum <= a * scale else a * scale <= sum < a * scale + scale
  }

  lemma AveragedRounds(prior: nat, load: nat, scale: nat)
    requires scale >= 2
    ensures RoundedMean(Averaged(prior, load, scale), prior, load, scale)
  {
    DivBounds(prior * (scale - 1) + (if load > prior then load + scale - 1 else load), scale);
  }

  /** The sample moves strictly towards the load and never past it. */
  lemma AveragedMoves(prior: nat, load: nat, scale: nat)
    requires scale >= 2
    ensures prior < load ==> prior < Averaged(prior, load, scale) <= load
    ensures prior > load ==> load <= Averaged(prior, load, scale) < prior
    ensures prior == load ==> Averaged(prior, load, scale) == load
  {
    MeanBracket(prior, load, scale);
    if prior < load {
      Bracketed(prior * (scale - 1) + load + scale - 1, scale, prior + 1, load);
    } else if prior > load {
      Bracketed(prior * (scale - 1) + load, scale, load, prior - 1);
    } else {
      DivIs(prior * (scale - 1) + load, scale, load);
    }
  }

  lemma Bracketed(n: nat, d: nat, low: nat, high: nat)
    requires d >= 1 && low * d <= n && n < (high + 1) * d
    ensures low <= n / d <= high
  {
    DivBounds(n, d);
    var r := n / d;
    if r < low { MulMono(r + 1, low, d); }
    if r > high { MulMono(high + 1, r, d); }
  }

  /** The dividend of the average lies between the multiples of scale that bound the result. */
  lemma MeanBracket(prior: nat, load: nat, scale: nat)
    requires scale >= 2
    ensures prior < load ==> (prior + 1) * scale <= prior * (scale - 1) + load + scale - 1 < (load + 1) * scale
    ensures prior > load ==> load * scale <= prior * (scale - 1) + load < prior * scale
    ensures prior == load ==> prior * (scale - 1) + load == load * scale
  {
    assert prior * (scale - 1) == prior * scale - prior;
    if prior < load {
      MulMono(1, scale - 1, load - prior);
      assert (scale - 1) * (load - prior) == load * scale - load - prior * scale + prior;
    } else {
      MulMono(0, scale - 1, prior - load);
      assert (scale - 1) * (prior - load) == prior * scale - prior - load * scale + load;
    }
  }

  function AveragedTimes(prior: nat, load: nat, scale: nat, n: nat): nat
    requires scale >= 2
  {
    if n == 0 then prior else Averaged(AveragedTimes(prior, load, scale, n - 1), load, scale)
  }

  function Distance(a: nat, b: nat): nat {
    if a <= b then b - a else a - b
  }

  lemma {:induction false} DistanceShrinks(prior: nat, load: nat, scale: nat, n: nat)
    requires scale >= 2
    ensures Distance(AveragedTimes(prior, load, scale, n), load) <= if n >= Distance(prior, load) then 0 else Distance(prior, load) - n
    ensures prior <= load ==> prior <= AveragedTimes(prior, load, scale, n) <= load
    ensures prior >= load ==> load <= AveragedTimes(prior, load, scale, n) <= prior
  {
    if n > 0 {
      DistanceShrinks(prior, load, scale, n - 1);
      AveragedMoves(AveragedTimes(prior, load, scale, n - 1), load, scale);
    }
  }

  /** Under constant load every sample reaches exactly that load within as many ticks as the two are
      apart, without overshooting, and stays there. */
  lemma Converges(prior: nat, load: nat, scale: nat, n: nat)
    requires scale >= 2 && n >= Distance(prior, load)
    ensures AveragedTimes(prior, load, scale, n) == load
  {
    DistanceShrinks(prior, load, scale, n);
  }

  /** The sample with index `i` after an update that comes `pending` ticks after the last one. */
  function NewSample(prior: nat, load: nat, pending: nat, i: nat): nat
    requires pending >= 1 && 1 <= i < CPU_LOAD_IDX_MAX
  {
    Pow2Values();
    Averaged(DecayLoadMissed(prior, pending - 1, i), load, Pow2(i))
  }

  lemma SamplesRounded(was: seq<nat>, now: seq<nat>, load: nat, pending: nat)
    requires |was| == |now| == CPU_LOAD_IDX_MAX && pending >= 1
    requires forall i :: 1 <= i < CPU_LOAD_IDX_MAX ==> now[i] == NewSample(was[i], load, pending, i)
    ensures forall i :: 1 <= i < CPU_LOAD_IDX_MAX ==>
              Pow2(i) >= 2 && RoundedMean(now[i], DecayLoadMissed(was[i], pending - 1, i), load, Pow2(i))
  {
    hide RoundedMean, DecayLoadMissed, Averaged;
    forall i | 1 <= i < CPU_LOAD_IDX_MAX
      ensures Pow2(i) >= 2 && RoundedMean(now[i], DecayLoadMissed(was[i], pending - 1, i), load, Pow2(i))
    {
      Pow2Values();
      AveragedRounds(DecayLoadMissed(was[i], pending - 1, i), load, Pow2(i));
    }
  }

  /** update_cpu_load on the array of samples. */
  method UpdateCpuLoad(cpuLoad: array<nat>, load: nat, jiffies: nat, last: nat) returns (tick: nat)
    requires cpuLoad.Length == CPU_LOAD_IDX_MAX && last <= jiffies
    modifies cpuLoad
    ensures tick == jiffies
    ensures jiffies == last ==> cpuLoad[..] == old(cpuLoad[..])
    ensures jiffies != last ==> cpuLoad[0] == load
    ensures jiffies != last ==>
              forall i :: 1 <= i < CPU_LOAD_IDX_MAX ==> cpuLoad[i] == NewSample(old(cpuLoad[i]), load, jiffies - last, i)
    ensures jiffies != last ==>
              forall i :: 1 <= i < CPU_LOAD_IDX_MAX ==>
                Pow2(i) >= 2 && RoundedMean(cpuLoad[i], DecayLoadMissed(old(cpuLoad[i]), jiffies - last - 1, i), load, Pow2(i))
  {
    hide Times, Quot, RoundedMean, DecayLoadMissed;
    tick := jiffies;
    if jiffies == last { return; }
    Pow2Values();
    var pending := jiffies - last;
    cpuLoad[0] := load;
    var i, scale := 1, 2;
    while i < CPU_LOAD_IDX_MAX
      invariant 1 <= i <= CPU_LOAD_IDX_MAX && scale == Pow2(i) && scale >= 2
      invariant cpuLoad[0] == load
      invariant forall k :: 1 <= k < i ==> cpuLoad[k] == NewSample(old(cpuLoad[k]), load, pending, k)
      invariant forall k :: i <= k < CPU_LOAD_IDX_MAX ==> cpuLoad[k] == old(cpuLoad[k])
    {
      var oldLoad := DecayMissed(cpuLoad[i], pending - 1, i);
      var newLoad := load;
      if newLoad > oldLoad { newLoad := newLoad + (scale - 1); }
      cpuLoad[i] := Quot(Times(oldLoad, scale - 1) + newLoad, scale);
      i, scale := i + 1, scale + scale;
    }
    SamplesRounded(old(cpuLoad[..]), cpuLoad[..], load, pending);
  }

  /** decay_load_missed as written. */
  method DecayMissed(load0: nat, missed0: nat, idx: nat) returns (load: nat)
    requires idx < CPU_LOAD_IDX_MAX
    ensures load == DecayLoadMissed(load0, missed0, idx)
    ensures 1 <= idx ==> load as real <= Mul(load0 as real, RPow(Ratio(idx), missed0))
                         <= load as real + 7.0 * (load0 as real / 128.0 + 1.0)
  {
    hide Mul, RPow;
    Pow2Values();
    if 1 <= idx {
      DecayBound(load0, missed0, idx);
      DecayTight(load0, missed0, idx);
    }
    if missed0 == 0 { return load0; }
    if missed0 >= DEGRADE_ZERO_TICKS[idx] { return 0; }
    if idx == 1 { return Quot(load0, Pow2(missed0)); }
    load := load0;
    var missed: nat, j: nat := missed0, 0;
    while missed != 0
      invariant j <= DEGRADE_SHIFT && missed < Pow2(DEGRADE_SHIFT - j)
      invariant DecayLoop(load, missed, idx, j) == DecayLoop(load0, missed0, idx, 0)
      decreases missed
    {
      if missed % 2 == 1 {
        load := Degraded(load, DEGRADE_FACTOR[idx][j]);
      }
      missed := missed / 2;
      j := j + 1;
    }
  }
}
