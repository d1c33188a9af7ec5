// The DC filter (DCfilter.c): a one-pole low-pass with integer
// coefficient Alp/AlpMux whose division remainder is carried to the next
// sample, so that no rounding error is ever lost. Four independent slots
// exist; the two high-pass filters use them to remove DC from their
// stored previous outputs.

module DCfilter {
  import opened CInt

  /** The number of filter slots (DCfilterNumberOfFilters). */
  const NumberOfFilters := 4

  /** One slot: the previous output and the carried remainder. */
  datatype Slot = Slot(PrvVal: int, PrvAccVal: int)

  datatype Output = Output(out: int, slot: Slot)

  /** One sample through one slot. The new slot holds the output and the
    * remainder of the scaled accumulator; the remainder is smaller than
    * the multiplier and has the accumulator's sign. */
  function Step(s: Slot, inVal: int, alp: int, alpMux: int): (r: Output)
    requires alpMux > 0
    ensures r.slot.PrvVal == r.out
  {
    var acu := (inVal - s.PrvVal) * alp + s.PrvAccVal;
    var outVal := Div(acu, alpMux) + s.PrvVal;
    Output(outVal, Slot(outVal, Mod(acu, alpMux)))
  }

  /** The step loses nothing: the scaled change of the output plus the new
    * remainder is exactly the scaled input difference plus the old
    * remainder, and the new remainder is smaller than the multiplier. */
  lemma StepBalances(s: Slot, inVal: int, alp: int, alpMux: int)
    requires alpMux > 0
    ensures var r := Step(s, inVal, alp, alpMux);
            && (inVal - s.PrvVal) * alp + s.PrvAccVal == (r.out - s.PrvVal) * alpMux + r.slot.PrvAccVal
            && Abs(r.slot.PrvAccVal) < alpMux
  {
    ModBounds((inVal - s.PrvVal) * alp + s.PrvAccVal, alpMux);
  }

  /** The slot's exact value, scaled by the multiplier. */
  function Scaled(s: Slot, alpMux: int): int { s.PrvVal * alpMux + s.PrvAccVal }

  /** No drift: the scaled value advances by exactly (in - PrvVal) * Alp on
    * every sample, whatever the truncation of the output. */
  lemma NoDrift(s: Slot, inVal: int, alp: int, alpMux: int)
    requires alpMux > 0
    ensures Scaled(Step(s, inVal, alp, alpMux).slot, alpMux) == Scaled(s, alpMux) + (inVal - s.PrvVal) * alp
  {
    var r := Step(s, inVal, alp, alpMux);
    StepBalances(s, inVal, alp, alpMux);
    assert r.out * alpMux == s.PrvVal * alpMux + (r.out - s.PrvVal) * alpMux;
  }

  /** A slot at rest on its input stays at rest. */
  lemma AtRest(v: int, alp: int, alpMux: int)
    requires alpMux > 0
    ensures Step(Slot(v, 0), v, alp, alpMux) == Output(v, Slot(v, 0))
  {
  }

  /** With a coefficient between 0 and 1 and nothing carried, the output
    * moves from the previous output toward the input without passing it. */
  lemma NoOvershoot(v: int, inVal: int, alp: int, alpMux: int)
    requires alpMux > 0 && 0 <= alp <= alpMux
    ensures v <= inVal ==> v <= Step(Slot(v, 0), inVal, alp, alpMux).out <= inVal
    ensures inVal <= v ==> inVal <= Step(Slot(v, 0), inVal, alp, alpMux).out <= v
  {
    ScaleBetween(inVal - v, alp, alpMux);
  }
}
