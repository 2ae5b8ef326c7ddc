/** Fixed-point load averages (core.c): one step, many steps at once, and how far the two can differ. */
module LoadAvg {
  import opened Kernel
  import opened Arith

  const FSHIFT: nat := 11
  const FIXED_1: nat := 2048
  const EXP_1: nat := 1884

  /** (v + 1UL << (frac_bits - 1)) >> frac_bits, with `one` = 1UL << frac_bits. */
  function Rounded(v: nat, one: nat): nat
    requires one >= 2
  {
    Quot(v + one / 2, one)
  }

  /** The loop of fixed_power_int. */
  function PowerLoop(one: nat, result: nat, x: nat, n: nat): nat
    requires one >= 2
    decreases n
  {
    if n == 0 then result
    else
      var next := if n % 2 == 1 then Rounded(result * x, one) else result;
      if n / 2 == 0 then next else PowerLoop(one, next, Rounded(x * x, one), n / 2)
  }

  function FixedPowerInt(x: nat, fracBits: nat, n: nat): nat
    requires fracBits >= 1
  {
    PowerLoop(Pow2(fracBits), Pow2(fracBits), x, n)
  }

  /** calc_load */
  function CalcLoad(load: nat, exp: nat, active: nat): nat
    requires exp <= FIXED_1
  {
    Rounded(Times(load, exp) + Times(active, FIXED_1 - exp), FIXED_1)
  }

  function CalcLoadTimes(load: nat, exp: nat, active: nat, n: nat): nat
    requires exp <= FIXED_1
  {
    if n == 0 then load else CalcLoad(CalcLoadTimes(load, exp, active, n - 1), exp, active)
  }

  // ---------------------------------------------------------------- fixed_power_int

  /** Rounding to the nearest fixed-point number is off by at most half a unit. */
  lemma RoundedError(v: nat, one: nat)
    requires one >= 2 && one % 2 == 0
    ensures Within(Mul(one as real, Rounded(v, one) as real), v as real, Mul(one as real, 0.5))
  {
    DivBounds(v + one / 2, one);
    OfInts(one, Rounded(v, one));
  }

  lemma RoundedSmall(a: nat, b: nat, one: nat)
    requires one >= 2 && a <= one && b <= one
    ensures Rounded(a * b, one) <= one
  {
    MulMono(a, one, b);
    MulMono(b, one, one);
    QuotCap(a * b + one / 2, one);
  }

  lemma QuotCap(v: nat, one: nat)
    requires one >= 2 && v <= one * one + one / 2
    ensures Quot(v, one) <= one
  {
    DivBounds(v, one);
    var r := Quot(v, one);
    if r > one { MulMono(one + 1, r, one); }
  }

  /** `a` stands for the exact `one * alpha` with an error of at most `e`. */
  ghost predicate Approximates(a: nat, one: nat, alpha: real, e: real) {
    a <= one && Within(a as real, Mul(one as real, alpha), e)
  }

  lemma ProductIdentity(fa: real, fb: real, f: real, alpha: real, beta: real)
    ensures Mul(fa, fb) - Mul(f, Mul(f, Mul(alpha, beta)))
            == Mul(fa, fb - Mul(f, beta)) + Mul(Mul(f, beta), fa - Mul(f, alpha))
  {
    hide Mul;
    Distribute(fa, fb, Mul(f, beta));
    Distribute(Mul(f, beta), fa, Mul(f, alpha));
    Commute(fa, Mul(f, beta));
    Associate(f, beta, Mul(f, alpha));
    Associate(beta, f, alpha);
    Commute(beta, f);
    Associate(f, beta, alpha);
    Commute(beta, alpha);
  }

  lemma FactorsError(fa: real, fb: real, f: real, alpha: real, beta: real, ea: real, eb: real)
    requires 0.0 <= fa <= f && 0.0 <= beta <= 1.0
    requires Within(fa, Mul(f, alpha), ea) && Within(fb, Mul(f, beta), eb)
    ensures Within(Mul(fa, fb), Mul(f, Mul(f, Mul(alpha, beta))), Mul(f, ea + eb))
  {
    hide Mul;
    ProductBound(fa, f, fb - Mul(f, beta), eb);
    FactorBound(f, beta);
    ProductBound(Mul(f, beta), f, fa - Mul(f, alpha), ea);
    ProductIdentity(fa, fb, f, alpha, beta);
    Distribute(f, ea, eb);
  }

  /** Errors add up under rounded multiplication, plus half a unit. */
  lemma ProductError(a: nat, b: nat, one: nat, alpha: real, beta: real, ea: real, eb: real)
    requires one >= 2 && one % 2 == 0 && 0.0 <= beta <= 1.0
    requires Approximates(a, one, alpha, ea) && Approximates(b, one, beta, eb)
    ensures Approximates(Rounded(a * b, one), one, Mul(alpha, beta), ea + eb + 0.5)
  {
    hide Mul, Rounded, Within;
    RoundedSmall(a, b, one);
    RoundedError(a * b, one);
    OfInts(a, b);
    FactorsError(a as real, b as real, one as real, alpha, beta, ea, eb);
    RoundingChain(one as real, Rounded(a * b, one) as real, (a * b) as real, Mul(one as real, Mul(alpha, beta)), ea + eb);
  }

  ghost function Halves(n: int): real {
    n as real / 2.0
  }

  /** The loop keeps `result` within r/2 of one*y^r and `x` within (m-1)/2 of one*y^m. */
  lemma {:induction false} PowerLoopError(one: nat, y: real, result: nat, r: nat, x: nat, m: nat, n: nat)
    requires one >= 2 && one % 2 == 0 && 0.0 <= y <= 1.0 && m >= 1
    requires Approximates(result, one, RPow(y, r), Halves(r))
    requires Approximates(x, one, RPow(y, m), Halves(m - 1))
    ensures Approximates(PowerLoop(one, result, x, n), one, RPow(y, r + m * n), Halves(r + m * n))
    decreases n
  {
    hide Mul, Approximates, Rounded;
    HalvingKeeps(r, m, n);
    if n > 0 {
      RPowUnit(y, m);
      var next, r' := result, r;
      if n % 2 == 1 {
        next, r' := Rounded(result * x, one), r + m;
        ProductError(result, x, one, RPow(y, r), RPow(y, m), Halves(r), Halves(m - 1));
        RPowAdd(y, r, m);
        assert Halves(r) + Halves(m - 1) + 0.5 == Halves(r');
      }
      assert Approximates(next, one, RPow(y, r'), Halves(r'));
      if n / 2 > 0 {
        ProductError(x, x, one, RPow(y, m), RPow(y, m), Halves(m - 1), Halves(m - 1));
        RPowAdd(y, m, m);
        assert m + m == 2 * m;
        assert Halves(m - 1) + Halves(m - 1) + 0.5 == Halves(2 * m - 1);
        PowerLoopError(one, y, next, r', Rounded(x * x, one), 2 * m, n / 2);
      }
    }
  }

  lemma HalvingKeeps(r: nat, m: nat, n: nat)
    ensures (if n % 2 == 1 then r + m else r) + (2 * m) * (n / 2) == r + m * n
  {
    assert n == 2 * (n / 2) + n % 2;
    assert m * n == m * (2 * (n / 2)) + m * (n % 2);
    assert (2 * m) * (n / 2) == m * (2 * (n / 2));
  }

  /** fixed_power_int is within n/2 units in the last place of the exact power and stays at most one. */
  lemma FixedPowerError(x: nat, fracBits: nat, n: nat, y: real)
    requires fracBits >= 1 && x <= Pow2(fracBits)
    requires y == x as real / Pow2(fracBits) as real
    ensures FixedPowerInt(x, fracBits, n) <= Pow2(fracBits)
    ensures Within(FixedPowerInt(x, fracBits, n) as real, Mul(Pow2(fracBits) as real, RPow(y, n)), n as real / 2.0)
    ensures Mul(Pow2(fracBits) as real, y) == x as real && 0.0 <= y <= 1.0
  {
    var one := Pow2(fracBits);
    DivTimes(x as real, one as real);
    hide Mul;
    UnitQuotient(x as real, one as real, y);
    Units(one as real);
    Units(y);
    assert RPow(y, 1) == Mul(y, RPow(y, 0)) == y;
    PowerLoopError(one, y, one, 0, x, 1, n);
    assert 0 + 1 * n == n;
  }

  /** fixed_power_int as written: O(log n) rounds over the bits of `n`. */
  method FixedPower(base: nat, fracBits: nat, exponent: nat) returns (result: nat)
    requires fracBits >= 1
    ensures result == FixedPowerInt(base, fracBits, exponent)
    ensures base <= Pow2(fracBits) ==>
              && result <= Pow2(fracBits)
              && Within(result as real,
                        Mul(Pow2(fracBits) as real, RPow(base as real / Pow2(fracBits) as real, exponent)),
                        exponent as real / 2.0)
  {
    hide Mul, Pow2, Within;
    if base <= Pow2(fracBits) {
      FixedPowerError(base, fracBits, exponent, base as real / Pow2(fracBits) as real);
    }
    var one := Pow2(fracBits);
    var x, n := base, exponent;
    result := one;
    while n != 0
      invariant PowerLoop(one, result, x, n) == FixedPowerInt(base, fracBits, exponent)
      decreases n
    {
      if n % 2 == 1 {
        result := Rounded(result * x, one);
      }
      n := n / 2;
      if n == 0 { break; }
      x := Rounded(x * x, one);
    }
  }

  // ---------------------------------------------------------------- calc_load

  /** One step never leaves the interval between the old average and the active count. */
  lemma CalcLoadBetween(load: nat, exp: nat, active: nat)
    requires exp <= FIXED_1
    ensures load <= active ==> load <= CalcLoad(load, exp, active) <= active
    ensures active <= load ==> active <= CalcLoad(load, exp, active) <= load
  {
    var v := load * exp + active * (FIXED_1 - exp);
    MulMono(0, exp, if load <= active then active - load else load - active);
    MulMono(0, FIXED_1 - exp, if load <= active then active - load else load - active);
    if load <= active {
      assert v - load * FIXED_1 == (FIXED_1 - exp) * (active - load);
      assert active * FIXED_1 - v == exp * (active - load);
    } else {
      assert v - active * FIXED_1 == exp * (load - active);
      assert load * FIXED_1 - v == (FIXED_1 - exp) * (load - active);
    }
  }

  /** The exact value of one step, for exp = 2048 * y. */
  lemma CalcLoadError(load: nat, exp: nat, active: nat, y: real)
    requires exp <= FIXED_1 && Mul(FIXED_1 as real, y) == exp as real
    ensures Within(CalcLoad(load, exp, active) as real,
                   active as real + Mul(load as real - active as real, y), 0.5)
  {
    hide Mul, Rounded;
    var v := Times(load, exp) + Times(active, FIXED_1 - exp);
    RoundedError(v, FIXED_1);
    var l, a, f := load as real, active as real, FIXED_1 as real;
    OfInts(load, exp);
    OfInts(active, FIXED_1 - exp);
    MeanIdentity(l, a, f, y);
    Units(f);
    RoundingChain(f, Rounded(v, FIXED_1) as real, v as real, a + Mul(l - a, y), 0.0);
  }

  lemma MeanIdentity(l: real, a: real, f: real, y: real)
    ensures Mul(l, Mul(f, y)) + Mul(a, f - Mul(f, y)) == Mul(f, a + Mul(l - a, y))
  {
    hide Mul;
    Distribute(a, f, Mul(f, y));
    Distribute(f, a, Mul(l - a, y));
    Associate(l, f, y);
    Associate(a, f, y);
    Commute(l, f);
    Commute(a, f);
    Associate(f, l, y);
    Associate(f, a, y);
    Commute(l - a, y);
    Distribute(y, l, a);
    Commute(y, l);
    Commute(y, a);
    Distribute(f, Mul(l, y), Mul(a, y));
  }

  /** n single steps stay within n/2 of the exact exponential. */
  lemma {:induction false} CalcLoadTimesError(load: nat, exp: nat, active: nat, n: nat, y: real)
    requires exp <= FIXED_1 && Mul(FIXED_1 as real, y) == exp as real && 0.0 <= y <= 1.0
    ensures Within(CalcLoadTimes(load, exp, active, n) as real,
                   active as real + Mul(load as real - active as real, RPow(y, n)), n as real / 2.0)
  {
    hide Mul, CalcLoad;
    var a := active as real;
    var d := load as real - a;
    if n == 0 {
      Units(d);
    } else {
      CalcLoadTimesError(load, exp, active, n - 1, y);
      var l := CalcLoadTimes(load, exp, active, n - 1);
      CalcLoadError(l, exp, active, y);
      var p := RPow(y, n - 1);
      var x := l as real - a;
      ProductBound(y, 1.0, x - Mul(d, p), (n - 1) as real / 2.0);
      Units((n - 1) as real / 2.0);
      Distribute(y, x, Mul(d, p));
      Commute(x, y);
      Associate(y, d, p);
      Commute(y, d);
      Associate(d, y, p);
    }
  }

  /** calc_load_n */
  function CalcLoadN(load: nat, exp: nat, active: nat, n: nat): (r: nat)
    requires exp <= FIXED_1
    ensures load <= active ==> load <= r <= active
    ensures active <= load ==> active <= r <= load
  {
    FixedOne();
    FixedPowerError(exp, FSHIFT, n, exp as real / FIXED_1 as real);
    CalcLoadBetween(load, FixedPowerInt(exp, FSHIFT, n), active);
    CalcLoad(load, FixedPowerInt(exp, FSHIFT, n), active)
  }

  lemma FixedOne()
    ensures Pow2(FSHIFT) == FIXED_1
  {
    assert Pow2(4) == 16;
    assert Pow2(8) == 256;
  }

  /** Bulk catch-up against n single steps: at most |load - active| * n / 4096 + (n + 1) / 2 apart. */
  lemma BulkError(load: nat, exp: nat, active: nat, n: nat)
    requires exp <= FIXED_1
    ensures Within(CalcLoadN(load, exp, active, n) as real,
                   CalcLoadTimes(load, exp, active, n) as real,
                   Mul(RAbs(load as real - active as real), n as real / 4096.0) + (n + 1) as real / 2.0)
  {
    hide Mul, CalcLoad, FixedPowerInt, RAbs, CalcLoadTimes;
    var f := FIXED_1 as real;
    var y := exp as real / f;
    FixedOne();
    FixedPowerError(exp, FSHIFT, n, y);
    CalcLoadTimesError(load, exp, active, n, y);
    var p := FixedPowerInt(exp, FSHIFT, n);
    var z := p as real / f;
    DivTimes(p as real, f);
    CalcLoadError(load, p, active, z);
    var d, exact, slack := load as real - active as real, RPow(y, n), n as real / 4096.0;
    Distribute(f, z, exact);
    assert Mul(f, slack) == n as real / 2.0 by { ScaleSlack(n); }
    CancelBound(f, z - exact, slack);
    ScaledError(d, z - exact, slack);
    Distribute(d, z, exact);
  }

  lemma ScaleSlack(n: nat)
    ensures Mul(FIXED_1 as real, n as real / 4096.0) == n as real / 2.0
  {
  }

  // ---------------------------------------------------------------- 32-bit arithmetic

  /** With at most 1023 active tasks the intermediate sum of calc_load fits a 32-bit word. */
  lemma CalcLoadFits(load: nat, exp: nat, active: nat)
    requires exp <= FIXED_1 && load <= 1023 * FIXED_1 && active <= 1023 * FIXED_1
    ensures load * exp + active * (FIXED_1 - exp) + FIXED_1 / 2 < WORD
    ensures CalcLoad(load, exp, active) <= 1023 * FIXED_1
  {
    var top := 1023 * FIXED_1;
    MulMono(load, top, exp);
    MulMono(active, top, FIXED_1 - exp);
    CalcLoadBetween(load, exp, active);
  }

  /** 1023 is the exact limit. After a long enough idle time the power has decayed to zero, and then
      the sum that calc_load_n has calc_load form fits iff at most 1023 tasks are active. */
  lemma BulkFitsIff(load: nat, exp: nat, k: nat, n: nat)
    requires FixedPowerInt(exp, FSHIFT, n) == 0
    ensures var e := FixedPowerInt(exp, FSHIFT, n);
            load * e + (k * FIXED_1) * (FIXED_1 - e) + FIXED_1 / 2 < WORD <==> k <= 1023
  {
  }

  lemma RoundedIs(v: nat, q: nat)
    requires q * 2048 <= v + 1024 < q * 2048 + 2048
    ensures Rounded(v, FIXED_1) == q
  {
    DivIs(v + 1024, 2048, q);
  }

  /** One even round of the loop. */
  lemma SquareRound(x: nat, y: nat, n: nat)
    requires n >= 2 && n % 2 == 0 && y * 2048 <= x * x + 1024 < y * 2048 + 2048
    ensures PowerLoop(FIXED_1, FIXED_1, x, n) == PowerLoop(FIXED_1, FIXED_1, y, n / 2)
  {
    RoundedIs(x * x, y);
  }

  lemma LastRound()
    ensures PowerLoop(FIXED_1, FIXED_1, 0, 1) == 0
  {
    RoundedIs(FIXED_1 * 0, 0);
    hide Rounded;
  }

  /** For the one-minute average 128 missed windows are long enough. */
  lemma LongIdleDecays()
    ensures FixedPowerInt(EXP_1, FSHIFT, 128) == 0
  {
    hide PowerLoop, Pow2;
    FixedOne();
    LastRound();
    SquareRound(1884, 1733, 128);
    SquareRound(1733, 1466, 64);
    SquareRound(1466, 1049, 32);
    SquareRound(1049, 537, 16);
    SquareRound(537, 141, 8);
    SquareRound(141, 10, 4);
    SquareRound(10, 0, 2);
  }

  /** The products of fixed_power_int fit as well, whatever the exponent. */
  lemma PowerFits(result: nat, x: nat)
    requires result <= FIXED_1 && x <= FIXED_1
    ensures result * x + FIXED_1 / 2 < WORD && x * x + FIXED_1 / 2 < WORD
    ensures Rounded(result * x, FIXED_1) <= FIXED_1 && Rounded(x * x, FIXED_1) <= FIXED_1
  {
    RoundedSmall(result, x, FIXED_1);
    RoundedSmall(x, x, FIXED_1);
    MulMono(result, FIXED_1, x);
    MulMono(x, FIXED_1, x);
  }

  // ---------------------------------------------------------------- calc_global_nohz

  /** How many sampling windows, each due 10 ticks after its update time, have passed unseen. */
  function Missed(jiffies: nat, update: nat, freq: nat): nat
    requires freq >= 1
    decreases if jiffies < update + 10 then 0 else jiffies - update - 10 + freq
  {
    if jiffies < update + 10 then 0 else 1 + Missed(jiffies, update + freq, freq)
  }

  /** calc_global_nohz computes the number of missed windows by a division. */
  lemma {:induction false} MissedByDivision(jiffies: nat, update: nat, freq: nat)
    requires freq >= 1 && jiffies >= update + 10
    ensures Missed(jiffies, update, freq) == 1 + (jiffies - update - 10) / freq
    decreases jiffies - update
  {
    var delta := jiffies - update - 10;
    if delta < freq {
      DivIs(delta, freq, 0);
    } else {
      MissedByDivision(jiffies, update + freq, freq);
      DivBounds(delta - freq, freq);
      DivIs(delta, freq, (delta - freq) / freq + 1);
    }
  }

  /** After the catch-up the next window lies ahead, as if every window had been served on its own. */
  lemma {:induction false} CaughtUp(jiffies: nat, update: nat, freq: nat)
    requires freq >= 1
    ensures jiffies < update + Missed(jiffies, update, freq) * freq + 10
    ensures Missed(jiffies, update, freq) > 0 ==> update + (Missed(jiffies, update, freq) - 1) * freq + 10 <= jiffies
    decreases if jiffies < update + 10 then 0 else jiffies - update - 10 + freq
  {
    if jiffies >= update + 10 {
      CaughtUp(jiffies, update + freq, freq);
      var k := Missed(jiffies, update + freq, freq);
      assert (1 + k) * freq == freq + k * freq;
      if k > 0 { assert k * freq == freq + (k - 1) * freq; }
    }
  }
}
