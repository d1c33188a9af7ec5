// The integer parts of calibration (Calibrate.c): the greatest common
// divisor that sizes the 5 kHz test-tone table so that it holds whole
// cycles, and the false-position search for the FET source voltage whose
// encoded test tone reaches a target level. The encode runs the search
// tries are an oracle here: a function from a source voltage to the
// average level of the encoded tone.

module Calibrate {
  import opened CInt

  /** The test tone's frequency (CalibrateTstFrq). */
  const TstFrq := 5000

  /** The search's starting bracket for the source voltage. */
  const LowS0 := 112500 * 100000
  const HigS0 := 115100 * 100000

  /** d is a positive divisor of n. */
  predicate Divides(d: int, n: int)
  {
    d > 0 && n % d == 0
  }

  /** Euclidean division is unique. */
  lemma DivModUnique(n: int, d: int, q: int, r: int)
    requires d > 0 && 0 <= r < d && n == q * d + r
    ensures n / d == q && n % d == r
  {
    var q', r' := n / d, n % d;
    assert n == q' * d + r';
    if q' < q {
      MulStep(q', q, d);
    } else if q' > q {
      MulStep(q, q', d);
    }
  }

  /** Adding a multiple of d does not change the remainder by d. */
  lemma ModShift(x: int, k: int, d: int)
    requires d > 0
    ensures (x + k * d) % d == x % d
  {
    assert x + k * d == (x / d + k) * d + x % d;
    DivModUnique(x + k * d, d, x / d + k, x % d);
  }

  /** Subtracting b from a keeps the common divisors of a and b. */
  lemma SubKeepsDivisors(a: int, b: int, d: int)
    ensures Divides(d, a) && Divides(d, b) <==> Divides(d, a - b) && Divides(d, b)
  {
    if d > 0 && b % d == 0 {
      var k := b / d;
      assert b == k * d;
      ModShift(a, -k, d);
      assert a - b == a + (-k) * d;
    }
  }

  /** Subtracting b from a keeps the set of common divisors of a and b. */
  lemma SubKeepsCommonDivisors(a: int, b: int)
    ensures forall d :: Divides(d, a) && Divides(d, b) <==> Divides(d, a - b) && Divides(d, b)
  {
    forall d
      ensures Divides(d, a) && Divides(d, b) <==> Divides(d, a - b) && Divides(d, b)
    {
      SubKeepsDivisors(a, b, d);
    }
  }

  /** The greatest common divisor as hcd64 reaches it: subtract the smaller
    * number from the larger until the two are equal. The result divides
    * both numbers and every common divisor divides it. */
  function Gcd(a: int, b: int): (g: int)
    requires a > 0 && b > 0
    ensures Divides(g, a) && Divides(g, b)
    ensures forall d :: Divides(d, a) && Divides(d, b) ==> Divides(d, g)
    decreases a + b
  {
    if a == b then
      assert a % a == 0;
      a
    else if a > b then
      SubKeepsCommonDivisors(a, b);
      Gcd(a - b, b)
    else
      SubKeepsCommonDivisors(b, a);
      Gcd(a, b - a)
  }

  /** hcd64: the loop does not end when either argument is 0, so both must
    * be positive (the sample rate is, once the session has started). */
  method Hcd64(a0: int, b0: int) returns (r: int)
    requires a0 > 0 && b0 > 0
    ensures r == Gcd(a0, b0)
  {
    var a, b := a0, b0;
    while a != b
      invariant a > 0 && b > 0 && Gcd(a, b) == Gcd(a0, b0)
      decreases a + b
    {
      if a > b {
        a := a - b;
      } else {
        b := b - a;
      }
    }
    r := a;
  }

  /** The size of the test-tone table (CalibrateMakeSinTab): the sample
    * rate divided by its greatest common divisor with 5000. The table is
    * not empty, no longer than a second, a whole number of tables make a
    * second, and it holds a whole number of cycles of the 5 kHz tone: n
    * samples last n * 5000 / smpSec cycles. */
  function SinTabLen(smpSec: int): (n: int)
    requires smpSec > 0
    ensures 1 <= n <= smpSec
    ensures smpSec == n * Gcd(smpSec, TstFrq)
    ensures (n * TstFrq) % smpSec == 0
  {
    var g := Gcd(smpSec, TstFrq);
    var n := smpSec / g;
    var q := TstFrq / g;
    assert smpSec == n * g;
    assert TstFrq == q * g;
    assert n * TstFrq == q * smpSec by {
      calc {
        n * TstFrq;
        n * (q * g);
        q * (n * g);
      }
    }
    ModShift(0, q, smpSec);
    assert n >= 1 && n <= smpSec by {
      if n < 1 { MulNonneg(-n, g); }
      MulNonneg(n, g - 1);
      assert n * g == n + n * (g - 1);
    }
    n
  }

  /** CalibrateMakeSinTab's sizing. */
  method SinTabMax(smpSec: int) returns (n: int)
    requires smpSec > 0
    ensures n == SinTabLen(smpSec)
  {
    var g := Hcd64(smpSec, TstFrq);
    n := smpSec / g;
  }

  /** The test tone's first n samples, sample i being sine(i). */
  function Tone(sine: int -> int, n: nat): (t: seq<int>)
    ensures |t| == n && forall i :: 0 <= i < n ==> t[i] == sine(i)
  {
    seq(n, i => sine(i))
  }

  /** The total of the absolute values of the first n samples read from
    * the table round and round, as the test without noise reduction adds
    * them up. */
  function ToneSum(tab: seq<int>, n: nat): (r: int)
    requires |tab| > 0
    ensures r >= 0
  {
    if n == 0 then 0 else ToneSum(tab, n - 1) + Abs(tab[(n - 1) % |tab|])
  }

  /** Reading one more whole table adds the table's own total. */
  lemma {:induction false} ToneSumShift(tab: seq<int>, m: nat)
    requires |tab| > 0
    ensures ToneSum(tab, m + |tab|) == ToneSum(tab, m) + ToneSum(tab, |tab|)
  {
    if m > 0 {
      ToneSumShift(tab, m - 1);
      ModShift(m - 1, 1, |tab|);
      assert m + |tab| - 1 == (m - 1) + |tab|;
    }
  }

  /** k whole tables total k times one table. */
  lemma {:induction false} ToneSumCycles(tab: seq<int>, k: nat)
    requires |tab| > 0
    ensures ToneSum(tab, k * |tab|) == k * ToneSum(tab, |tab|)
  {
    if k > 0 {
      hide *;
      var n, s := |tab|, ToneSum(tab, |tab|);
      ToneSumCycles(tab, k - 1);
      ToneSumShift(tab, (k - 1) * n);
      assert (k - 1) * n + n == k * n;
      assert (k - 1) * s + s == k * s;
    }
  }

  /** Scaling a non-negative numerator and a divisor alike leaves C's
    * quotient as it is. */
  lemma DivCancel(a: int, k: int, b: int)
    requires a >= 0 && k > 0 && b > 0
    ensures Div(k * a, k * b) == Div(a, b)
  {
    var q, r := a / b, a % b;
    assert a == q * b + r;
    assert k * a == q * (k * b) + k * r;
    MulStep(r, b, k);
    assert k * r < k * b;
    MulNonneg(k, r);
    MulNonneg(k, a);
    DivModUnique(k * a, k * b, q, k * r);
  }

  /** The level the test without noise reduction measures
    * (CalibrateRunNoNRTest): five seconds of the tone, the mean absolute
    * sample, truncated. */
  function NoNRLevel(smpSec: int, sine: int -> int): int
    requires smpSec > 0
  {
    Div(ToneSum(Tone(sine, SinTabLen(smpSec)), 5 * smpSec), 5 * smpSec)
  }

  /** Since five seconds are a whole number of tables, the level is the
    * mean absolute sample of one table. */
  lemma NoNRLevelIsTableMean(smpSec: int, sine: int -> int)
    requires smpSec > 0
    ensures var n := SinTabLen(smpSec);
            NoNRLevel(smpSec, sine) == Div(ToneSum(Tone(sine, n), n), n)
  {
    var n := SinTabLen(smpSec);
    var g := Gcd(smpSec, TstFrq);
    var t := Tone(sine, n);
    assert 5 * smpSec == (5 * g) * n;
    ToneSumCycles(t, 5 * g);
    DivCancel(ToneSum(t, n), 5 * g, n);
  }

  /** The false-position step: the source voltage where the straight line
    * through the bracket's two results meets the target, truncated. With
    * the target strictly between the two results it lies in the bracket,
    * at or above the low end and below the high end. */
  function Interpolate(lowS: int, higS: int, lowRes: int, higRes: int, target: int): (r: int)
    requires lowS < higS && lowRes < target < higRes
    ensures lowS <= r < higS
  {
    var w, num, den := higS - lowS, (higS - lowS) * (target - lowRes), higRes - lowRes;
    MulNonneg(w, target - lowRes);
    assert num < w * den by {
      assert w * den - num == w * (higRes - target);
      MulStep(0, w, higRes - target);
    }
    var q := Div(num, den);
    assert q < w by {
      if q >= w {
        if q > w { MulStep(w, q, den); }
      }
    }
    DivSign(num, den);
    lowS + q
  }

  /** The voltage search's variables (CalibrateFindSVlt): the bracket
    * and its results, and the previous and the latest voltage tried with
    * their results. */
  datatype SVltSearch = SVltSearch(lowS: int, higS: int, lowRes: int, higRes: int,
                                   prvS: int, prvRes: int, tryS: int, tryRes: int)

  /** What the search keeps: a bracket inside the starting one whose
    * results straddle the target, and every result the oracle's value at
    * its voltage. */
  predicate SVltValid(target: int, oracle: int -> int, s: SVltSearch)
  {
    && LowS0 <= s.lowS < s.higS <= HigS0
    && s.lowRes == oracle(s.lowS) && s.higRes == oracle(s.higS) && s.lowRes < target < s.higRes
    && s.tryRes == oracle(s.tryS) && s.prvRes == oracle(s.prvS)
    && LowS0 <= s.tryS <= HigS0 && LowS0 <= s.prvS <= HigS0
  }

  /** The state the loop starts from: both ends tried, the low end as the
    * previous trial and the high end as the latest, so that the loop runs. */
  function SVltStart(oracle: int -> int): SVltSearch
  {
    SVltSearch(LowS0, HigS0, oracle(LowS0), oracle(HigS0), LowS0, oracle(LowS0), HigS0, oracle(HigS0))
  }

  /** One pass of the loop: the latest trial becomes the previous one, the
    * false-position voltage becomes the latest, and unless it repeats the
    * previous voltage it is tried and its result replaces the bracket's
    * end on its side of the target. The bracket only narrows. */
  function SVltStep(target: int, oracle: int -> int, s: SVltSearch): (r: SVltSearch)
    requires SVltValid(target, oracle, s)
    ensures SVltValid(target, oracle, r)
    ensures s.lowS <= r.lowS && r.higS <= s.higS
  {
    var f := Interpolate(s.lowS, s.higS, s.lowRes, s.higRes, target);
    var r := s.(prvS := s.tryS, prvRes := s.tryRes, tryS := f);
    if f == r.prvS then r
    else
      var res := oracle(f);
      if res > target then r.(tryRes := res, higS := f, higRes := res)
      else if res < target then r.(tryRes := res, lowS := f, lowRes := res)
      else r.(tryRes := res)
  }

  /** The bracket rule of a pass: the previous trial is the latest one
    * before it; the high end is replaced only by a trial whose result is
    * above the target and the low end only by one below it, and a result
    * equal to the target replaces neither. */
  lemma SVltStepBracket(target: int, oracle: int -> int, s: SVltSearch)
    requires SVltValid(target, oracle, s)
    ensures var r := SVltStep(target, oracle, s);
            && r.prvS == s.tryS && r.prvRes == s.tryRes
            && r.tryS == Interpolate(s.lowS, s.higS, s.lowRes, s.higRes, target)
            && (r.higS != s.higS ==> r.tryS != r.prvS && r.tryRes > target && r.higS == r.tryS)
            && (r.lowS != s.lowS ==> r.tryS != r.prvS && r.tryRes < target && r.lowS == r.tryS)
            && (r.tryS != r.prvS && r.tryRes > target ==> r.higS == r.tryS && r.lowS == s.lowS)
            && (r.tryS != r.prvS && r.tryRes < target ==> r.lowS == r.tryS && r.higS == s.higS)
            && (r.tryRes == target ==> r.higS == s.higS && r.lowS == s.lowS)
  {
  }

  /** The loop's measure: zero once the last two results agree, otherwise
    * twice the bracket's width, one more while the latest trial is not
    * the false-position voltage of the bracket, and one. */
  function SVltMeasure(target: int, oracle: int -> int, s: SVltSearch): nat
    requires SVltValid(target, oracle, s)
  {
    if s.tryRes == s.prvRes then 0
    else 2 * (s.higS - s.lowS) + (if s.tryS == Interpolate(s.lowS, s.higS, s.lowRes, s.higRes, target) then 0 else 1) + 1
  }

  /** A pass that runs decreases the measure: either it repeats the
    * previous voltage and the loop stops, or the bracket narrows, or the
    * bracket stays and the latest trial becomes its false-position voltage. */
  lemma SVltStepDecreases(target: int, oracle: int -> int, s: SVltSearch)
    requires SVltValid(target, oracle, s) && s.tryRes != s.prvRes
    ensures SVltMeasure(target, oracle, SVltStep(target, oracle, s)) < SVltMeasure(target, oracle, s)
  {
  }

  /** The loop of CalibrateFindSVlt from state s: passes until the last two
    * results agree. It ends on two voltages of the starting bracket with
    * equal results, the bracket nested in s's. */
  function SVltRun(target: int, oracle: int -> int, s: SVltSearch): (r: SVltSearch)
    requires SVltValid(target, oracle, s)
    ensures SVltValid(target, oracle, r) && r.tryRes == r.prvRes && oracle(r.tryS) == oracle(r.prvS)
    ensures s.lowS <= r.lowS && r.higS <= s.higS
    decreases SVltMeasure(target, oracle, s)
  {
    if s.tryRes == s.prvRes then s
    else
      SVltStepDecreases(target, oracle, s);
      SVltRun(target, oracle, SVltStep(target, oracle, s))
  }

  /** tryS and prvS are the last two voltages the search from the starting
    * bracket tries, which needs the target strictly between the results of
    * the starting bracket. */
  predicate SVltEnds(target: int, oracle: int -> int, tryS: int, prvS: int)
  {
    && oracle(LowS0) < target < oracle(HigS0)
    && var r := SVltRun(target, oracle, SVltStart(oracle));
       tryS == r.tryS && prvS == r.prvS
  }

  /** CalibrateFindSVlt with the encode runs as an oracle: tries from the
    * starting bracket, each replacing the bracket's end on its side of the
    * target (a result equal to the target replaces neither), until two
    * consecutive results are equal or the step repeats the previous
    * voltage. The last two voltages tried are SVltRun's, which gave equal
    * results; the result is their rounded-up midpoint and lies in the
    * starting bracket. The search needs the target strictly between the
    * results of the starting bracket; the library relies on its chosen
    * bracket. */
  method FindSVlt(target: int, oracle: int -> int) returns (svt: int, ghost tryS: int, ghost prvS: int)
    requires oracle(LowS0) < target < oracle(HigS0)
    ensures SVltEnds(target, oracle, tryS, prvS)
    ensures oracle(tryS) == oracle(prvS)
    ensures LowS0 <= tryS <= HigS0 && LowS0 <= prvS <= HigS0
    ensures svt == Div(tryS + prvS + 1, 2)
    ensures LowS0 <= svt <= HigS0
  {
    var lowS, higS := LowS0, HigS0;
    var lowRes, higRes := oracle(lowS), oracle(higS);
    var prvS', prvRes := lowS, lowRes;
    var tryS', tryRes := higS, higRes;
    ghost var start := SVltStart(oracle);
    while tryRes != prvRes
      invariant SVltValid(target, oracle, SVltSearch(lowS, higS, lowRes, higRes, prvS', prvRes, tryS', tryRes))
      invariant SVltRun(target, oracle, SVltSearch(lowS, higS, lowRes, higRes, prvS', prvRes, tryS', tryRes))
             == SVltRun(target, oracle, start)
      decreases SVltMeasure(target, oracle, SVltSearch(lowS, higS, lowRes, higRes, prvS', prvRes, tryS', tryRes))
    {
      ghost var cur := SVltSearch(lowS, higS, lowRes, higRes, prvS', prvRes, tryS', tryRes);
      SVltStepDecreases(target, oracle, cur);
      prvS', prvRes := tryS', tryRes;
      var f := Interpolate(lowS, higS, lowRes, higRes, target);
      tryS' := f;
      if f != prvS' {
        tryRes := oracle(f);
        if tryRes > target {
          higS, higRes := tryS', tryRes;
        } else if tryRes < target {
          lowS, lowRes := tryS', tryRes;
        }
      }
      assert SVltSearch(lowS, higS, lowRes, higRes, prvS', prvRes, tryS', tryRes) == SVltStep(target, oracle, cur);
    }
    tryS, prvS := tryS', prvS';
    svt := Div(tryS' + prvS' + 1, 2);
  }
}
