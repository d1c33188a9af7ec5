// The sliding high-pass filter of the side path (HPF2.c), one channel at a
// time. Its alpha, input attenuation and output attenuation come from
// HPF2SetVals; the filter runs HPF2UpSmp times over each sample and the
// outputs are averaged. Depending on the filter type, part of the input
// ("the potentiometer") bypasses the filter, and for types 2 and 4 that
// part goes through HPF1. Like HPF1 it runs as a check, a commit or an
// update; it owns DC filter slot HPF1NumberOfFilters + Chn.

module HPF2 {
  import opened CInt
  import opened Params
  import DCfilter
  import HPF1
  import opened HPF2SetVals

  /** One channel: committed previous input and output, the shadow copies a
    * check leaves behind (including the total it returned), and the DC
    * filter slot. */
  datatype Filt = Filt(PrvIn: int, PrvOt: int, PrvInVal: int, PrvOtVal: int, PrvOtTot: int,
                       dc: DCfilter.Slot)

  /** The state the upsampling loop carries: previous input, previous
    * output and the running total of outputs. */
  datatype Slid = Slid(PrvIn: int, PrvOt: int, Tot: int)

  /** A sample through HPF2, with the new HPF1 and HPF2 states. */
  datatype Stepped = Stepped(out: int, h1: HPF1.Filt, h2: Filt)

  predicate SameCommitted(a: Filt, b: Filt)
  {
    a.PrvIn == b.PrvIn && a.PrvOt == b.PrvOt && a.dc == b.dc
  }

  /** The first k passes of the sliding filter over the same sample s. */
  function Slide(pi: int, po: int, s: int, alp: int, mux: int, k: nat): (r: Slid)
    requires mux > 0
    ensures k > 0 ==> r.PrvIn == s
  {
    if k == 0 then Slid(pi, po, 0)
    else
      var p := Slide(pi, po, s, alp, mux, k - 1);
      var o := Div((p.PrvOt + s - p.PrvIn) * alp, mux);
      Slid(s, o, p.Tot + o)
  }

  /** With alpha a fraction of its multiplier, the repeated passes decay:
    * no output, and so no average of the k outputs, is larger than the
    * first step's difference previous output + sample - previous input. */
  lemma {:induction false} SlideDecays(pi: int, po: int, s: int, alp: int, mux: int, k: nat)
    requires mux > 0 && 0 <= alp <= mux && k >= 1
    ensures Abs(Slide(pi, po, s, alp, mux, k).PrvOt) <= Abs(po + s - pi)
    ensures Abs(Slide(pi, po, s, alp, mux, k).Tot) <= k * Abs(po + s - pi)
  {
    var d := po + s - pi;
    if k == 1 {
      ScaleBetween(d, alp, mux);
    } else {
      SlideDecays(pi, po, s, alp, mux, k - 1);
      var p := Slide(pi, po, s, alp, mux, k - 1);
      assert p.PrvOt + s - p.PrvIn == p.PrvOt;
      ScaleBetween(p.PrvOt, alp, mux);
      assert k * Abs(d) == (k - 1) * Abs(d) + Abs(d);
    }
  }

  /** The potentiometer share taken from the input before filtering: for
    * filter types 1 and 2 only. */
  function PotBefore(c: Config, v: Vals, x: int): (r: int)
    requires c.Valid()
    ensures c.FltTyp > 2 ==> r == 0
  {
    if c.FltTyp > 2 then 0 else Div(x * v.Pot, c.HPF2SetValsPotMux)
  }

  /** The upsampling loop from the committed state. */
  function Run(c: Config, v: Vals, h2: Filt, x: int): (r: Slid)
    requires c.Valid()
    ensures r.PrvIn == x - PotBefore(c, v, x)
  {
    Slide(h2.PrvIn, h2.PrvOt, x - PotBefore(c, v, x), v.Alp, c.HPF2SetValsAlpMux, c.HPF2UpSmp)
  }

  /** The filter's share of the output: the truncated average over the
    * HPF2UpSmp passes, attenuated by FPt / FltAttMux. */
  function Filtered(c: Config, v: Vals, h2: Filt, x: int): int
    requires c.Valid()
  {
    Div(Div(Run(c, v, h2, x).Tot, c.HPF2UpSmp) * v.FPt, HPF2SetValsFltAttMux)
  }

  /** The potentiometer share after filtering: for types 3 and 4 it is
    * taken from the difference between the input and the filter's share. */
  function PotAfter(c: Config, v: Vals, h2: Filt, x: int): (r: int)
    requires c.Valid()
    ensures c.FltTyp <= 2 ==> r == PotBefore(c, v, x)
  {
    if c.FltTyp > 2
    then Div((x - Filtered(c, v, h2, x)) * v.Pot, c.HPF2SetValsPotMux)
    else PotBefore(c, v, x)
  }

  /** Filter types 2 and 4 pass the potentiometer share through HPF1. */
  predicate PotThroughHPF1(c: Config)
  {
    c.FltTyp == 2 || c.FltTyp == 4
  }

  /** HPF2Check: a trial run. The committed HPF2 state and DC slot are not
    * touched, nor is the committed HPF1 state; the shadow copies record
    * where the upsampling loop ended and the total that is returned. */
  function Check(c: Config, v: Vals, h1: HPF1.Filt, h2: Filt, x: int): (r: Stepped)
    requires c.Valid()
    ensures SameCommitted(r.h2, h2) && HPF1.SameCommitted(r.h1, h1)
    ensures r.h2.PrvOtTot == r.out
    ensures r.h2.PrvInVal == Run(c, v, h2, x).PrvIn && r.h2.PrvOtVal == Run(c, v, h2, x).PrvOt
    ensures !PotThroughHPF1(c) ==> r.h1 == h1 && r.out == Filtered(c, v, h2, x) + PotAfter(c, v, h2, x)
    ensures PotThroughHPF1(c) ==> r.out == Filtered(c, v, h2, x) + HPF1.Filter(c, h1, PotAfter(c, v, h2, x))
    ensures PotThroughHPF1(c) ==> r.h1 == HPF1.Check(c, h1, PotAfter(c, v, h2, x)).f
  {
    var sl := Run(c, v, h2, x);
    var o := Filtered(c, v, h2, x);
    var pot := PotAfter(c, v, h2, x);
    var hc := if PotThroughHPF1(c) then HPF1.Check(c, h1, pot) else HPF1.Stepped(pot, h1);
    Stepped(o + hc.out, hc.f, h2.(PrvInVal := sl.PrvIn, PrvOtVal := sl.PrvOt, PrvOtTot := o + hc.out))
  }

  /** HPF2: the same output as a check from the same state. The loop's
    * final input and output are committed, the DC filter slot is fed the
    * filter's share (without the potentiometer share) and its output is
    * subtracted from the stored previous output; HPF1 is committed for
    * types 2 and 4. The shadow copies are not touched. */
  function Commit(c: Config, v: Vals, h1: HPF1.Filt, h2: Filt, x: int): (r: Stepped)
    requires c.Valid()
    ensures r.out == Check(c, v, h1, h2, x).out
    ensures var lp := DCfilter.Step(h2.dc, Filtered(c, v, h2, x), c.DCfilterAlp, c.DCfilterAlpMux);
            r.h2 == h2.(PrvIn := Run(c, v, h2, x).PrvIn, PrvOt := Run(c, v, h2, x).PrvOt - lp.out, dc := lp.slot)
    ensures !PotThroughHPF1(c) ==> r.h1 == h1
    ensures PotThroughHPF1(c) ==> r.h1 == HPF1.Commit(c, h1, PotAfter(c, v, h2, x)).f
  {
    var sl := Run(c, v, h2, x);
    var o := Filtered(c, v, h2, x);
    var lp := DCfilter.Step(h2.dc, o, c.DCfilterAlp, c.DCfilterAlpMux);
    var h2' := h2.(PrvIn := sl.PrvIn, PrvOt := sl.PrvOt - lp.out, dc := lp.slot);
    var pot := PotAfter(c, v, h2, x);
    var hc := if PotThroughHPF1(c) then HPF1.Commit(c, h1, pot) else HPF1.Stepped(pot, h1);
    Stepped(o + hc.out, hc.f, h2')
  }

  /** HPF2Update: commit what the last check recorded. The DC filter slot
    * is fed the total the check returned. */
  function Update(c: Config, h2: Filt): (r: Filt)
    requires c.Valid()
    ensures r.PrvIn == h2.PrvInVal
    ensures r.PrvInVal == h2.PrvInVal && r.PrvOtVal == h2.PrvOtVal && r.PrvOtTot == h2.PrvOtTot
    ensures var lp := DCfilter.Step(h2.dc, h2.PrvOtTot, c.DCfilterAlp, c.DCfilterAlpMux);
            r.PrvOt == h2.PrvOtVal - lp.out && r.dc == lp.slot
  {
    var lp := DCfilter.Step(h2.dc, h2.PrvOtTot, c.DCfilterAlp, c.DCfilterAlpMux);
    h2.(PrvIn := h2.PrvInVal, PrvOt := h2.PrvOtVal - lp.out, dc := lp.slot)
  }

  /** A check followed by an update commits what a commit commits exactly
    * when the potentiometer share of the returned value is zero: in
    * general the update feeds the DC filter the total with the
    * potentiometer share, the commit the filter's share alone. */
  lemma CheckThenUpdate(c: Config, v: Vals, h1: HPF1.Filt, h2: Filt, x: int)
    requires c.Valid()
    ensures var k := Check(c, v, h1, h2, x);
            var u := Update(c, k.h2);
            var m := Commit(c, v, h1, h2, x);
            && u.PrvIn == m.h2.PrvIn
            && (k.out == Filtered(c, v, h2, x) ==> SameCommitted(u, m.h2))
  {
  }

  /** A check depends on the committed state only. */
  lemma CheckIgnoresShadow(c: Config, v: Vals, h1: HPF1.Filt, g1: HPF1.Filt, h2: Filt, g2: Filt, x: int)
    requires c.Valid() && HPF1.SameCommitted(h1, g1) && SameCommitted(h2, g2)
    ensures Check(c, v, h1, h2, x).out == Check(c, v, g1, g2, x).out
    ensures Check(c, v, h1, h2, x).h2 == Check(c, v, g1, g2, x).h2
  {
  }

  /** Filter type 1 with a non-zero potentiometer: the value the update
    * feeds the DC filter differs from the commit's, so after a check and
    * an update the stored previous output is not the one a commit of the
    * same sample stores. */
  lemma UpdateDiffersFromCommit()
    ensures var tab := seq(HPF2SetValsTableSize + 1, i => 0);
            var gt := seq(SetGateTabLen, i => 0);
            var c := Config(1, false, 0, 0, 0, 0, 1, 1, 0, 1, 1, tab, tab, tab, 1, 1,
                            HPF2SetValsTableSize, 1, 1, 1, 1, gt, gt, gt, 0, 0, 1, 1, 1, 1);
            var v := Vals(1, 0, 0);
            var h1 := HPF1.Filt(0, 0, 0, 0, DCfilter.Slot(0, 0));
            var h2 := Filt(0, 0, 0, 0, 0, DCfilter.Slot(0, 0));
            && c.Valid()
            && Update(c, Check(c, v, h1, h2, 1).h2).PrvOt != Commit(c, v, h1, h2, 1).h2.PrvOt
  {
    var tab := seq(HPF2SetValsTableSize + 1, i => 0);
    var gt := seq(SetGateTabLen, i => 0);
    var c := Config(1, false, 0, 0, 0, 0, 1, 1, 0, 1, 1, tab, tab, tab, 1, 1,
                    HPF2SetValsTableSize, 1, 1, 1, 1, gt, gt, gt, 0, 0, 1, 1, 1, 1);
    DivExact(HPF2SetValsTableSize, 1);
    assert c.Valid();
    var v := Vals(1, 0, 0);
    var h1 := HPF1.Filt(0, 0, 0, 0, DCfilter.Slot(0, 0));
    var h2 := Filt(0, 0, 0, 0, 0, DCfilter.Slot(0, 0));
    DivExact(1, 1);
    DivExact(0, 1);
    DivExact(0, HPF2SetValsFltAttMux);
    assert PotBefore(c, v, 1) == 1;
    assert Run(c, v, h2, 1).Tot == 0;
    assert Filtered(c, v, h2, 1) == 0;
    assert Check(c, v, h1, h2, 1).out == 1;
  }

  /** With alpha a fraction of its multiplier and an output attenuation of
    * at most one, the filter's share of the output is no larger than the
    * first pass's difference. */
  lemma FilteredBounded(c: Config, v: Vals, h2: Filt, x: int)
    requires c.Valid() && 0 <= v.Alp <= c.HPF2SetValsAlpMux && 0 <= v.FPt <= HPF2SetValsFltAttMux
    ensures Abs(Filtered(c, v, h2, x)) <= Abs(h2.PrvOt + (x - PotBefore(c, v, x)) - h2.PrvIn)
  {
    var s := x - PotBefore(c, v, x);
    var d := Abs(h2.PrvOt + s - h2.PrvIn);
    var n := c.HPF2UpSmp;
    var tot := Run(c, v, h2, x).Tot;
    SlideDecays(h2.PrvIn, h2.PrvOt, s, v.Alp, c.HPF2SetValsAlpMux, n);
    AverageBounded(tot, n, d);
    var avg := Div(tot, n);
    ScaleBetween(avg, v.FPt, HPF2SetValsFltAttMux);
  }

  /** A total of n values each at most d in magnitude averages (truncated)
    * to at most d in magnitude. */
  lemma AverageBounded(tot: int, n: int, d: nat)
    requires n > 0 && Abs(tot) <= n * d
    ensures Abs(Div(tot, n)) <= d
  {
    assert n * d == d * n;
    var m := 0 - d as int;
    DivExact(d, n);
    DivExact(m, n);
    assert m * n == -(d * n);
    DivMonotone(tot, d * n, n);
    DivMonotone(m * n, tot, n);
  }
}
