// The decoder's search for the output sample (FindOutSmp.c). Decoding
// must find the sample y whose side-path signal s(y) satisfies
// y = Decode(x, s(y)); the library brackets y between a low and a high
// value, tries guesses with side-path checks (which leave the committed
// filter state alone), uses a secant step from two unclipped trials at
// most twice per sample, and otherwise halves the bracket until it is no
// wider than FindOutSmpMaxDif.

module FindOutSmp {
  import opened CInt
  import opened Params
  import Mixers
  import SidePath

  /** The initial bracket is [-HigVal, HigVal]. */
  const HigVal := 500_000_000_000

  /** The least bracket width the search settles for (FindOutSmpInit). */
  const MinMaxDif := 10

  /** FindOutSmpInit: the configured width, raised to at least 10. */
  function MaxDif(configured: int): (r: int)
    ensures r >= MinMaxDif
    ensures configured >= MinMaxDif ==> r == configured
  {
    if configured < MinMaxDif then MinMaxDif else configured
  }

  /** FindOutSmpCheckRange: a guess on or outside the bracket is moved
    * just inside it. Whenever the bracket is at least 2 wide, the result
    * lies strictly inside it; a guess already inside is kept. */
  function CheckRange(n: int, hig: int, low: int): (r: int)
    ensures hig - low >= 2 ==> low < r < hig
    ensures low < n < hig ==> r == n
  {
    if n <= low then low + 1 else if n >= hig then hig - 1 else n
  }

  /** FindOutSmpCalcGuessMux: the slope of the line through two trials,
    * or 1.0 ("no secant step") when both differences are positive or the
    * output moved at least 20 times as far as the guess. A zero guess
    * difference always gives 1.0, so there is no division by zero. */
  function CalcGuessMux(gs1: int, gsP: int, ot1: int, otP: int): (r: real)
    ensures (gsP - gs1 > 0 && otP - ot1 > 0) ==> r == 1.0
    ensures Abs(otP - ot1) >= 20 * Abs(gsP - gs1) ==> r == 1.0
    ensures r != 1.0 ==> gsP != gs1 && r * (gsP - gs1) as real == (otP - ot1) as real
  {
    var dGs, dOt := gsP - gs1, otP - ot1;
    var tryGus := dGs <= 0 || dOt <= 0;
    var tryGus' := if tryGus then Abs(dOt) < Abs(dGs) * 20 else dGs < 0 && dOt < 0;
    if tryGus' then dOt as real / dGs as real else 1.0
  }

  /** C's round(): the nearest integer, halves away from zero. */
  function Round(x: real): (r: int)
    ensures x - 0.5 <= r as real <= x + 0.5
  {
    if x >= 0.0 then (x + 0.5).Floor else -((-x + 0.5).Floor)
  }

  /** The exact secant guess: the point where the line through
    * (g0, o0) with slope m meets the line output == guess. */
  function Secant(m: real, g0: int, o0: int): (r: real)
    requires m != 1.0
    ensures (m - 1.0) * r == m * g0 as real - o0 as real
  {
    (m * g0 as real - o0 as real) / (m - 1.0)
  }

  /** Storing a 64-bit value in an int32 slot keeps its low 32 bits. */
  function Int32(x: int): (r: int)
    ensures -0x8000_0000 <= r < 0x8000_0000
    ensures (x - r) % 0x1_0000_0000 == 0
    ensures -0x8000_0000 <= x < 0x8000_0000 ==> r == x
  {
    (x + 0x8000_0000) % 0x1_0000_0000 - 0x8000_0000
  }

  /** The bracket, high end first as in the library's argument order. */
  datatype Bracket = Bracket(Hig: int, Low: int)

  function Width(b: Bracket): int { b.Hig - b.Low }

  /** FindOutSmpUpdateHigLow: a trial of guess n that came out as o. A
    * correct guess brackets it tightly; a guess that was too low becomes
    * the low end and the high end drops to just above the output; a
    * guess that was too high becomes the high end and the low end rises
    * to just below the output. */
  function UpdateHigLow(n: int, o: int, b: Bracket): (r: Bracket)
    ensures o == n ==> r == Bracket(n + 1, n - 1)
    ensures o > n ==> r.Low == n && r.Hig == (if o < b.Hig then o + 1 else b.Hig)
    ensures o < n ==> r.Hig == n && r.Low == (if o > b.Low then o - 1 else b.Low)
  {
    var b1 := if o == n then Bracket(n + 1, n - 1) else b;
    var b2 := if o > n then Bracket(if o < b1.Hig then o + 1 else b1.Hig, n) else b1;
    if o >= n then b2
    else Bracket(n, if o > b2.Low then o - 1 else b2.Low)
  }

  /** FindOutSmpUpdateHigLow as the library writes it: the two ends are
    * updated in place, one case after the other. */
  method MoveHigLow(nxtVal: int, outVal: int, hig0: int, low0: int) returns (hig: int, low: int)
    ensures Bracket(hig, low) == UpdateHigLow(nxtVal, outVal, Bracket(hig0, low0))
  {
    hig, low := hig0, low0;
    if outVal == nxtVal {
      low := nxtVal - 1;
      hig := nxtVal + 1;
    }
    if outVal > nxtVal {
      low := nxtVal;
      if outVal < hig {
        hig := outVal + 1;
      }
    }
    if outVal >= nxtVal {
      return;
    }
    hig := nxtVal;
    if outVal > low {
      low := outVal - 1;
    }
  }

  /** With the guess strictly inside, the new bracket lies inside the old
    * one, is not empty, and is strictly narrower whenever the old one was
    * at least 3 wide. */
  lemma Narrows(n: int, o: int, b: Bracket)
    requires b.Low < n < b.Hig
    ensures var r := UpdateHigLow(n, o, b);
            b.Low <= r.Low < r.Hig <= b.Hig && (Width(b) >= 3 ==> Width(r) < Width(b))
  {
  }

  /** A bracket less than 2 wide (empty or inverted): after one trial of
    * its range-checked guess the bracket is at most 2 wide. */
  lemma NarrowStaysNarrow(g: int, o: int, b: Bracket)
    requires Width(b) < 2
    ensures Width(UpdateHigLow(CheckRange(g, b.Hig, b.Low), o, b)) <= 2
  {
  }

  /** One trial: the side path is checked on guess n and the result
    * decoded from input sample x; the diode clipper's flag comes along. */
  datatype Trial = Trial(out: int, cliped: bool)

  function Test(c: Config, ch: SidePath.Channel, x: int, n: int): (r: Trial)
    requires c.Valid()
    ensures var k := SidePath.Check(c, ch, n);
            r.out == Mixers.Decode(x, k.out) && r.cliped == k.cliped
  {
    var k := SidePath.Check(c, ch, n);
    Trial(Mixers.Decode(x, k.out), k.cliped)
  }

  /** The search's variables at the head of the loop. GusSta counts the
    * unclipped trials recorded, up to 2; GusVal and OutVal are the two
    * int32 slots of recorded guesses and their outputs. */
  datatype Loop = Loop(b: Bracket, NxtGus: int, NxtOut: int, NxtDif: int,
                       GusCnt: nat, GusSta: nat, GusVal0: int, GusVal1: int, OutVal0: int, OutVal1: int)

  /** The guess a loop iteration tries, and whether it was a secant step.
    * A secant step needs two recorded trials, fewer than two secant steps
    * so far, a slope away from 1 and a guess strictly inside the bracket;
    * otherwise the bracket is halved. The guess is then range-checked. */
  datatype Guess = Guess(n: int, secant: bool)

  function NextGuess(s: Loop): (r: Guess)
    ensures r.secant ==> s.GusSta == 2 && s.GusCnt < 2
    ensures Width(s.b) >= 2 ==> s.b.Low < r.n < s.b.Hig
  {
    var gusNow := s.GusSta == 2 && s.GusCnt < 2;
    var m := if gusNow then CalcGuessMux(s.GusVal0, s.GusVal1, s.OutVal0, s.OutVal1) else 0.0;
    var gusNow' := gusNow && (m < 0.95 || m > 1.05);
    var sec := if gusNow' then Round(Secant(m, s.GusVal0, s.OutVal0)) else s.NxtGus;
    var gusNow'' := gusNow' && s.b.Low < sec < s.b.Hig;
    var g := if gusNow'' then sec else s.b.Low + Div(s.b.Hig - s.b.Low, 2);
    Guess(CheckRange(g, s.b.Hig, s.b.Low), gusNow'')
  }

  /** Recording a trial: an unclipped trial raises GusSta (to at most 2)
    * and goes into slot GusSta - 1, so the first stays in slot 0 and the
    * latest in slot 1. A clipped trial is not recorded. */
  function Record(s: Loop, n: int, t: Trial): (r: Loop)
    ensures r.b == s.b && r.GusCnt == s.GusCnt
    ensures t.cliped ==> r == s
    ensures !t.cliped ==> r.GusSta == (if s.GusSta < 2 then s.GusSta + 1 else s.GusSta)
    ensures !t.cliped && r.GusSta == 1 ==> r.GusVal0 == Int32(n) && r.OutVal0 == Int32(t.out)
    ensures !t.cliped && r.GusSta == 2 ==> r.GusVal1 == Int32(n) && r.OutVal1 == Int32(t.out)
  {
    if t.cliped then s
    else
      var sta := if s.GusSta < 2 then s.GusSta + 1 else s.GusSta;
      if sta == 1 then s.(GusSta := sta, GusVal0 := Int32(n), OutVal0 := Int32(t.out))
      else s.(GusSta := sta, GusVal1 := Int32(n), OutVal1 := Int32(t.out))
  }

  /** The loop's variables after trying guess g with trial t: the secant
    * count, the trial recorded, the bracket updated, and the new width. */
  function Advance(s: Loop, g: Guess, t: Trial): (r: Loop)
    ensures r.NxtGus == g.n && r.NxtOut == t.out
    ensures r.b == UpdateHigLow(g.n, t.out, s.b) && r.NxtDif == Width(r.b)
    ensures r.GusCnt == (if g.secant then s.GusCnt + 1 else s.GusCnt)
  {
    var s' := Record(s.(GusCnt := if g.secant then s.GusCnt + 1 else s.GusCnt), g.n, t);
    var b := UpdateHigLow(g.n, t.out, s.b);
    s'.(b := b, NxtGus := g.n, NxtOut := t.out, NxtDif := Width(b))
  }

  /** One iteration of the loop. */
  function Iterate(c: Config, ch: SidePath.Channel, x: int, s: Loop): (r: Loop)
    requires c.Valid()
    ensures var g := NextGuess(s);
            && r.NxtGus == g.n
            && r.NxtOut == Test(c, ch, x, g.n).out
            && r.b == UpdateHigLow(g.n, r.NxtOut, s.b)
            && r.NxtDif == Width(r.b)
            && r.GusCnt == (if g.secant then s.GusCnt + 1 else s.GusCnt)
  {
    var g := NextGuess(s);
    Advance(s, g, Test(c, ch, x, g.n))
  }

  /** The start of a loop iteration as the library writes it: a secant
    * step when two trials are recorded, fewer than two secant steps were
    * taken, the slope is away from 1 and the step lands strictly inside
    * the bracket; otherwise the bracket's midpoint; then the range check. */
  method ChooseGuess(s: Loop) returns (g: Guess)
    ensures g == NextGuess(s)
  {
    var gusNow := s.GusSta == 2 && s.GusCnt < 2;
    var gusMux := 0.0;
    var nxtGus := s.NxtGus;
    if gusNow {
      gusMux := CalcGuessMux(s.GusVal0, s.GusVal1, s.OutVal0, s.OutVal1);
      gusNow := gusMux < 0.95 || gusMux > 1.05;
    }
    if gusNow {
      nxtGus := Round(Secant(gusMux, s.GusVal0, s.OutVal0));
      gusNow := s.b.Low < nxtGus < s.b.Hig;
    }
    if !gusNow {
      nxtGus := s.b.Low + Div(s.b.Hig - s.b.Low, 2);
    }
    g := Guess(CheckRange(nxtGus, s.b.Hig, s.b.Low), gusNow);
  }

  /** The end of a loop iteration as the library writes it: the secant
    * count, an unclipped trial stored in slot GusSta - 1 after GusSta is
    * raised, the bracket moved in place and its width taken. */
  method Tried(s: Loop, g: Guess, t: Trial) returns (r: Loop)
    ensures r == Advance(s, g, t)
  {
    r := s;
    if g.secant {
      r := r.(GusCnt := r.GusCnt + 1);
    }
    if !t.cliped {
      if r.GusSta < 2 {
        r := r.(GusSta := r.GusSta + 1);
      }
      if r.GusSta == 1 {
        r := r.(GusVal0 := Int32(g.n), OutVal0 := Int32(t.out));
      } else {
        r := r.(GusVal1 := Int32(g.n), OutVal1 := Int32(t.out));
      }
    }
    var hig, low := MoveHigLow(g.n, t.out, s.b.Hig, s.b.Low);
    r := r.(b := Bracket(hig, low), NxtGus := g.n, NxtOut := t.out, NxtDif := hig - low);
  }

  /** The loop's variant: zero once the loop stops, otherwise one more
    * than the bracket's width. */
  function Measure(s: Loop, maxDif: int): nat
  {
    if s.NxtDif > maxDif then (if Width(s.b) > 0 then Width(s.b) else 0) + 1 else 0
  }

  /** An iteration that does not stop the loop narrows the bracket; from
    * a bracket at least 2 wide the new one lies inside the old. */
  lemma IterateDecreases(c: Config, ch: SidePath.Channel, x: int, s: Loop, maxDif: int)
    requires c.Valid() && maxDif >= MinMaxDif && s.NxtDif > maxDif
    ensures Measure(Iterate(c, ch, x, s), maxDif) < Measure(s, maxDif)
    ensures var r := Iterate(c, ch, x, s);
            Width(s.b) >= 2 ==> s.b.Low <= r.b.Low < r.b.Hig <= s.b.Hig
  {
    var g := NextGuess(s);
    var r := Iterate(c, ch, x, s);
    if Width(s.b) >= 2 {
      Narrows(g.n, r.NxtOut, s.b);
    } else {
      NarrowStaysNarrow(if g.secant then g.n else s.b.Low + Div(s.b.Hig - s.b.Low, 2), r.NxtOut, s.b);
    }
  }

  /** The loop: iterate while the last bracket width exceeds maxDif. It
    * stops, and it stops with a bracket no wider than maxDif whose last
    * guess's trial is the returned output; at most two secant steps are
    * taken and at most two trials recorded. A bracket at least 2 wide only
    * shrinks. */
  function Search(c: Config, ch: SidePath.Channel, x: int, s: Loop, maxDif: int): (r: Loop)
    requires c.Valid() && maxDif >= MinMaxDif
    requires s.GusCnt <= 2 && s.GusSta <= 2
    ensures r.NxtDif <= maxDif
    ensures r.GusCnt <= 2 && r.GusSta <= 2
    ensures s.NxtDif > maxDif ==> r.NxtDif == Width(r.b) && r.NxtOut == Test(c, ch, x, r.NxtGus).out
    ensures s.NxtDif > maxDif && Width(s.b) >= 2 ==> s.b.Low <= r.b.Low < r.b.Hig <= s.b.Hig
    decreases Measure(s, maxDif)
  {
    if s.NxtDif > maxDif then
      IterateDecreases(c, ch, x, s, maxDif);
      Search(c, ch, x, Iterate(c, ch, x, s), maxDif)
    else s
  }

  /** One iteration of the search, as the loop performs it: the guess
    * chosen, its trial, and the variables advanced; the search goes on
    * from there to the same end, nearer to stopping, and the secant and
    * record counts stay within 2. */
  lemma SearchStep(c: Config, ch: SidePath.Channel, x: int, s: Loop, maxDif: int)
    requires c.Valid() && maxDif >= MinMaxDif && s.NxtDif > maxDif
    requires s.GusCnt <= 2 && s.GusSta <= 2
    ensures var g := NextGuess(s);
            var s' := Advance(s, g, Test(c, ch, x, g.n));
            && Search(c, ch, x, s', maxDif) == Search(c, ch, x, s, maxDif)
            && Measure(s', maxDif) < Measure(s, maxDif)
            && s'.GusCnt <= 2 && s'.GusSta <= 2
  {
    IterateDecreases(c, ch, x, s, maxDif);
  }

  /** The output search is the loop run from its starting state. */
  lemma RunSearches(c: Config, ch: SidePath.Channel, x: int, prvIn: int, prvOt: int, maxDif: int)
    requires c.Valid() && maxDif >= MinMaxDif
    ensures Run(c, ch, x, prvIn, prvOt, maxDif) == Search(c, ch, x, Start(c, ch, x, prvIn, prvOt, maxDif), maxDif)
  {
  }

  /** A search whose last width is within maxDif has ended. */
  lemma SearchStops(c: Config, ch: SidePath.Channel, x: int, s: Loop, maxDif: int)
    requires c.Valid() && maxDif >= MinMaxDif && s.NxtDif <= maxDif
    requires s.GusCnt <= 2 && s.GusSta <= 2
    ensures Search(c, ch, x, s, maxDif) == s
  {
  }

  /** The first guess and its trial: the previous output plus the change
    * in the input; if that trial did not clip, its output is tried in
    * turn (the code retries on an unclipped trial, whatever its comment
    * says). */
  function FirstTrial(c: Config, ch: SidePath.Channel, x: int, prvIn: int, prvOt: int): (r: (int, Trial))
    requires c.Valid()
    ensures var n0 := prvOt + x - prvIn;
            var t0 := Test(c, ch, x, n0);
            r == if t0.cliped then (n0, t0) else (t0.out, Test(c, ch, x, t0.out))
  {
    var n0 := prvOt + x - prvIn;
    var t0 := Test(c, ch, x, n0);
    if t0.cliped then (n0, t0) else (t0.out, Test(c, ch, x, t0.out))
  }

  /** The loop's starting state: the bracket after the first trial, a
    * width that forces one iteration, and the first trial recorded if it
    * did not clip. */
  function Start(c: Config, ch: SidePath.Channel, x: int, prvIn: int, prvOt: int, maxDif: int): (r: Loop)
    requires c.Valid()
    ensures r.NxtDif > maxDif && r.GusCnt == 0 && r.GusSta <= 1
  {
    var (n, t) := FirstTrial(c, ch, x, prvIn, prvOt);
    var sta := if t.cliped then 0 else 1;
    var g0 := if t.cliped then 0 else Int32(n);
    var o0 := if t.cliped then 0 else Int32(t.out);
    Loop(UpdateHigLow(n, t.out, Bracket(HigVal, -HigVal)), n, t.out, maxDif + 1, 0, sta, g0, 0, o0, 0)
  }

  /** FindOutSmp on a channel's committed state: the search from the first
    * trial. Its result is the trial of its last guess, and the bracket
    * it ends with is no wider than maxDif. */
  function Run(c: Config, ch: SidePath.Channel, x: int, prvIn: int, prvOt: int, maxDif: int): (r: Loop)
    requires c.Valid() && maxDif >= MinMaxDif
    ensures r.NxtOut == Test(c, ch, x, r.NxtGus).out
    ensures Width(r.b) <= maxDif
    ensures r.GusCnt <= 2 && r.GusSta <= 2
  {
    Search(c, ch, x, Start(c, ch, x, prvIn, prvOt, maxDif), maxDif)
  }
}
