// The two-stage envelope detector that drives the FET's gate (SetGate.c).
// Stage 1 attenuates the sample and low-pass filters it with an alpha
// looked up by how far the sample is above the stage's previous output;
// stage 2 filters stage 1's output again, and a diode keeps it from
// falling more than 0.6 V below stage 1. The tables themselves are built
// in floating point at initialisation and are given here.

module SetGate {
  import opened CInt
  import opened Params

  /** One channel: the two stages' previous outputs and the gate output. */
  datatype Gate = Gate(PvrSmp1: int, PvrSmp2: int, Out: int)

  /** The gate of a freshly initialised channel. */
  const Zero := Gate(0, 0, 0)

  /** A table position clamped to the table's first and last positions. */
  function ClampPos(p: int, st: int, ed: int): (r: int)
    requires st <= ed
    ensures st <= r <= ed
    ensures st <= p <= ed ==> r == p
  {
    if p < st then st else if p > ed then ed else p
  }

  /** The input clamped to the session's sample range. */
  function ClampSample(c: Config, x: int): (r: int)
    requires c.Valid()
    ensures c.SetGateMinSmp <= r <= c.SetGateMaxSmp
    ensures c.SetGateMinSmp <= x <= c.SetGateMaxSmp ==> r == x
  {
    var s := if x > c.SetGateMaxSmp then c.SetGateMaxSmp else x;
    if s < c.SetGateMinSmp then c.SetGateMinSmp else s
  }

  /** Stage 1's table index: 0 .. 975 of the 976-entry tables. */
  function Index1(c: Config, g: Gate, x: int): (r: int)
    requires c.Valid()
    ensures 0 <= r <= SetGateTab1Ed - SetGateTab1St && r < |c.SetGateAttTab| && r < |c.SetGateAlpTab1|
  {
    ClampPos(Div(ClampSample(c, x) - g.PvrSmp1, SetGateTabPosDiv1), SetGateTab1St, SetGateTab1Ed) - SetGateTab1St
  }

  /** The sample after the stage 1 attenuator. */
  function Attenuated(c: Config, g: Gate, x: int): int
    requires c.Valid()
  {
    Div(ClampSample(c, x) * c.SetGateAttTab[Index1(c, g, x)], c.SetGateAttMux)
  }

  /** Stage 1's output: the previous output moved toward the attenuated
    * sample by alpha. */
  function Stage1(c: Config, g: Gate, x: int): int
    requires c.Valid()
  {
    var i := Index1(c, g, x);
    g.PvrSmp1 + Div((Attenuated(c, g, x) - g.PvrSmp1) * c.SetGateAlpTab1[i], c.SetGateA1Mux)
  }

  /** Stage 2's table index: 0 .. 699 of a table allocated with 976 entries. */
  function Index2(g: Gate, s1: int): (r: int)
    ensures 0 <= r <= SetGateTab2Ed - SetGateTab2St && r < SetGateTabLen
  {
    ClampPos(Div(s1 - g.PvrSmp2, SetGateTabPosDiv2), SetGateTab2St, SetGateTab2Ed) - SetGateTab2St
  }

  /** Stage 2's output: the previous output moved toward stage 1's output,
    * but not below stage 1's output less the diode's 0.6 V. */
  function Stage2(c: Config, g: Gate, s1: int): (r: int)
    requires c.Valid()
    ensures r >= s1 - SetGateDioVlt
  {
    var floor := s1 - SetGateDioVlt;
    var s2 := g.PvrSmp2 + Div((s1 - g.PvrSmp2) * c.SetGateAlpTab2[Index2(g, s1)], c.SetGateA2Mux);
    if s2 < floor then floor else s2
  }

  /** SetGate: one sample through both stages. Stage 1's output is
    * remembered, and the gate output is stage 2's output, which is also
    * remembered; it never lies more than the diode voltage below stage 1. */
  function Step(c: Config, g: Gate, x: int): (r: Gate)
    requires c.Valid()
    ensures r.PvrSmp1 == Stage1(c, g, x)
    ensures r.Out == r.PvrSmp2 && r.PvrSmp2 == Stage2(c, g, r.PvrSmp1)
    ensures r.PvrSmp2 >= r.PvrSmp1 - SetGateDioVlt
  {
    var s1 := Stage1(c, g, x);
    var s2 := Stage2(c, g, s1);
    Gate(s1, s2, s2)
  }

  /** With the float-built alphas between 0 and 1, stage 1 moves from its
    * previous output toward the attenuated sample without passing it. */
  lemma Stage1Between(c: Config, g: Gate, x: int)
    requires c.Valid() && c.Shaped()
    ensures var a := Attenuated(c, g, x);
            var s1 := Stage1(c, g, x);
            (g.PvrSmp1 <= a ==> g.PvrSmp1 <= s1 <= a) && (a <= g.PvrSmp1 ==> a <= s1 <= g.PvrSmp1)
  {
    var i := Index1(c, g, x);
    ScaleBetween(Attenuated(c, g, x) - g.PvrSmp1, c.SetGateAlpTab1[i], c.SetGateA1Mux);
  }

  /** With the float-built alphas between 0 and 1, stage 2's output lies
    * between its previous output and stage 1's output: the diode floor
    * can only hold it back when it rises, never push it past stage 1. */
  lemma Stage2Between(c: Config, g: Gate, s1: int)
    requires c.Valid() && c.Shaped()
    ensures var s2 := Stage2(c, g, s1);
            (g.PvrSmp2 <= s1 ==> g.PvrSmp2 <= s2 <= s1) && (s1 <= g.PvrSmp2 ==> s1 <= s2 <= g.PvrSmp2)
  {
    var i := Index2(g, s1);
    assert i < |c.SetGateAlpTab2|;
    ScaleBetween(s1 - g.PvrSmp2, c.SetGateAlpTab2[i], c.SetGateA2Mux);
  }

  /** A gate whose two stages are at rest stays at rest on a zero input,
    * and its output becomes zero whatever it was: the priming at
    * initialisation leaves the zeroed stages as they are. */
  lemma ZeroAtRest(c: Config, g: Gate)
    requires c.Valid()
    ensures g.PvrSmp1 == 0 && g.PvrSmp2 == 0 ==> Step(c, g, 0) == Zero
  {
    assert ClampSample(c, 0) == 0;
    DivExact(0, SetGateTabPosDiv1);
    DivExact(0, c.SetGateAttMux);
    DivExact(0, c.SetGateA1Mux);
    DivExact(0, SetGateTabPosDiv2);
    DivExact(0, c.SetGateA2Mux);
  }

  /** r is above or at every resistance not too high, from 0 up to r. */
  ghost predicate Monotone(tooHigh: nat -> bool)
  {
    forall r: nat, s: nat :: r <= s && tooHigh(r) ==> tooHigh(s)
  }

  /** SetGateGetRes27: the resistance of the 2.7 kOhm resistor and the
    * diode, searched for downward from the previous result prv. The
    * predicate says whether a resistance is too high for the input
    * voltage; it is false up to the resistor's own 2.7 kOhm, where the
    * diode carries no current. Steps of 1000 find a value that is not too
    * high, a binary search narrows the bracket and a linear walk finishes.
    * The result is not too high, and either the next value is too high or
    * the result is prv; for a monotone predicate it is the largest value
    * up to prv that is not too high. It is never below min(prv, 2700), so
    * the cached result is a valid start for the next search. */
  method GetRes27(prv: nat, tooHigh: nat -> bool) returns (low: nat)
    requires 1000 <= prv < 0xFFFF_FFFF
    requires forall r: nat :: r <= GCR1 ==> !tooHigh(r)
    ensures low <= prv && !tooHigh(low)
    ensures low == prv || tooHigh(low + 1)
    ensures low >= prv || low >= GCR1
    ensures Monotone(tooHigh) ==> forall r: nat :: low < r <= prv ==> tooHigh(r)
  {
    var hig: nat := prv;
    low := hig - 1000;
    while tooHigh(low)
      invariant low + 1000 == hig <= prv
      invariant hig == prv || tooHigh(hig)
      decreases low
    {
      hig := low;
      low := hig - 1000;
    }
    while low + 1 < hig
      invariant low < hig <= prv && !tooHigh(low)
      invariant hig == prv || tooHigh(hig)
    {
      var nxt := low + (hig - low) / 2;
      if tooHigh(nxt) {
        hig := nxt;
      } else {
        low := nxt;
      }
    }
    var nxt := low + 1;
    while !(tooHigh(nxt) || nxt > hig)
      invariant nxt == low + 1 && low <= hig <= low + 1 && hig <= prv && !tooHigh(low)
      invariant hig == prv || tooHigh(hig)
      decreases hig - low
    {
      low := nxt;
      nxt := low + 1;
    }
    if Monotone(tooHigh) && low < prv {
      forall r: nat | low < r <= prv
        ensures tooHigh(r)
      {
        assert low + 1 <= r && tooHigh(low + 1);
      }
    }
  }
}
