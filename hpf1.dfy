// The fixed high-pass filter of the side path (HPF1.c), one channel at a
// time. The filter can run in three ways: a check that only records what
// it would store, a commit that stores its new previous values, and an
// update that later commits what the last check recorded. The stored
// previous output is corrected by the channel's DC filter slot.

module HPF1 {
  import opened CInt
  import opened Params
  import DCfilter

  /** One channel: the committed previous input and output, the shadow
    * copies a check leaves behind, and the channel's DC filter slot. */
  datatype Filt = Filt(PrvIn: int, PrvOt: int, PrvInVal: int, PrvOtVal: int, dc: DCfilter.Slot)

  /** A filter output together with the channel's new state. */
  datatype Stepped = Stepped(out: int, f: Filt)

  /** The committed part of a channel agrees in two states. */
  predicate SameCommitted(a: Filt, b: Filt)
  {
    a.PrvIn == b.PrvIn && a.PrvOt == b.PrvOt && a.dc == b.dc
  }

  /** HPF1Filter: alpha * (previous output + input - previous input), from
    * the committed state only. */
  function Filter(c: Config, f: Filt, x: int): int
    requires c.Valid()
  {
    Div((f.PrvOt + x - f.PrvIn) * c.HPF1Alp, c.HPF1AlpMux)
  }

  /** HPF1SetPrevious: the output goes through the DC filter, and the DC
    * level is subtracted from the output that is stored for the next
    * sample; the shadow copies are not touched. */
  function SetPrevious(c: Config, f: Filt, x: int, y: int): (r: Filt)
    requires c.Valid()
    ensures r.PrvIn == x && r.PrvOt == y - r.dc.PrvVal
    ensures r.dc == DCfilter.Step(f.dc, y, c.DCfilterAlp, c.DCfilterAlpMux).slot
    ensures r.PrvInVal == f.PrvInVal && r.PrvOtVal == f.PrvOtVal
  {
    var lp := DCfilter.Step(f.dc, y, c.DCfilterAlp, c.DCfilterAlpMux);
    f.(PrvIn := x, PrvOt := y - lp.out, dc := lp.slot)
  }

  /** HPF1Check: a trial run. Only the shadow copies change; they hold the
    * input and the output, ready for a later update. */
  function Check(c: Config, f: Filt, x: int): (r: Stepped)
    requires c.Valid()
    ensures SameCommitted(r.f, f)
    ensures r.f == f.(PrvInVal := x, PrvOtVal := r.out)
    ensures r.out == Filter(c, f, x)
  {
    var y := Filter(c, f, x);
    Stepped(y, f.(PrvInVal := x, PrvOtVal := y))
  }

  /** HPF1: the same output as a check from the same state, with the new
    * previous values committed and the shadow copies left alone. */
  function Commit(c: Config, f: Filt, x: int): (r: Stepped)
    requires c.Valid()
    ensures r.out == Check(c, f, x).out
    ensures r.f == SetPrevious(c, f, x, r.out)
    ensures r.f.PrvInVal == f.PrvInVal && r.f.PrvOtVal == f.PrvOtVal
  {
    var y := Filter(c, f, x);
    Stepped(y, SetPrevious(c, f, x, y))
  }

  /** HPF1Update: commit the input and output the last check recorded. */
  function Update(c: Config, f: Filt): (r: Filt)
    requires c.Valid()
    ensures r.PrvIn == f.PrvInVal
    ensures r.PrvInVal == f.PrvInVal && r.PrvOtVal == f.PrvOtVal
    ensures r == SetPrevious(c, f, f.PrvInVal, f.PrvOtVal)
  {
    SetPrevious(c, f, f.PrvInVal, f.PrvOtVal)
  }

  /** A check followed by an update stores exactly what a commit of the
    * same input stores, apart from the shadow copies that the check
    * filled in. */
  lemma CheckThenUpdate(c: Config, f: Filt, x: int)
    requires c.Valid()
    ensures var k := Check(c, f, x);
            Update(c, k.f) == Commit(c, f, x).f.(PrvInVal := x, PrvOtVal := k.out)
  {
  }

  /** A check depends on the committed state only: whatever an earlier
    * check left in the shadow copies is overwritten. */
  lemma CheckIgnoresShadow(c: Config, f: Filt, g: Filt, x: int)
    requires c.Valid() && SameCommitted(f, g)
    ensures Check(c, f, x) == Check(c, g, x)
  {
  }

  /** With alpha between 0 and 1 the filter never amplifies: the output
    * has the sign of (previous output + input - previous input) and is no
    * larger. */
  lemma FilterAttenuates(c: Config, f: Filt, x: int)
    requires c.Valid() && c.Shaped()
    ensures var d := f.PrvOt + x - f.PrvIn;
            (d >= 0 ==> 0 <= Filter(c, f, x) <= d) && (d <= 0 ==> d <= Filter(c, f, x) <= 0)
  {
    ScaleBetween(f.PrvOt + x - f.PrvIn, c.HPF1Alp, c.HPF1AlpMux);
  }

  /** A channel at rest (no stored output, input repeating the stored
    * input, DC filter empty) stays at rest when committed. */
  lemma RestStaysAtRest(c: Config, v: int, sIn: int, sOt: int)
    requires c.Valid()
    ensures Commit(c, Filt(v, 0, sIn, sOt, DCfilter.Slot(0, 0)), v)
         == Stepped(0, Filt(v, 0, sIn, sOt, DCfilter.Slot(0, 0)))
  {
    DCfilter.AtRest(0, c.DCfilterAlp, c.DCfilterAlpMux);
  }
}
