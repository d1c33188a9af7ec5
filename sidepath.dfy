// The Dolby B side path (SidePath.c), one channel at a time: a gain, the
// fixed high-pass filter (types 1 and 3), the sliding high-pass filter,
// the gain control that moves the sliding filter for the next sample, and
// the overshoot diodes. The encoder commits every sample; the decoder
// tries samples with a check and commits the one it keeps with an update.

module SidePath {
  import opened CInt
  import opened Params
  import DCfilter
  import DiodeClip
  import HPF1
  import HPF2
  import SetGate
  import HPF2SetVals

  /** The per-channel state of the side path. */
  datatype Channel = Channel(h1: HPF1.Filt, h2: HPF2.Filt, gate: SetGate.Gate, vals: HPF2SetVals.Vals)

  /** A side-path sample, the diode clipper's flag and the channel's new
    * state. */
  datatype SideStep = SideStep(out: int, cliped: bool, ch: Channel)

  /** The committed parts of two channel states agree: everything but the
    * shadow copies a check fills in. */
  predicate SameCommitted(a: Channel, b: Channel)
  {
    HPF1.SameCommitted(a.h1, b.h1) && HPF2.SameCommitted(a.h2, b.h2) && a.gate == b.gate && a.vals == b.vals
  }

  /** Filter types 1 and 3 put the fixed high-pass filter first. */
  predicate HPF1First(c: Config)
  {
    c.FltTyp == 1 || c.FltTyp == 3
  }

  /** The gain applied to audio entering the side path. */
  function Gain(c: Config, x: int): int
    requires c.Valid()
  {
    Div(x * c.SidePathGainVal, c.SidePathGainMux)
  }

  /** The overshoot diodes. */
  function Clip(c: Config, y: int): (r: DiodeClip.Clipped)
    requires c.Valid()
    ensures c.DiodeClipMinVal <= r.value <= c.DiodeClipMaxVal
  {
    DiodeClip.Clip(c.DiodeClipMinVal, c.DiodeClipMaxVal, y)
  }

  /** The gate part of the gain control: with FETClp set the gate output
    * is forced to zero, otherwise the filtered sample, scaled by the
    * gain-control gain, goes through SetGate. */
  function ControlGate(c: Config, g: SetGate.Gate, y: int): (r: SetGate.Gate)
    requires c.Valid()
    ensures c.FETClp ==> r == g.(Out := 0)
    ensures !c.FETClp ==> r == SetGate.Step(c, g, Div(y * c.SidePathGcVal, c.SidePathGcMux))
  {
    if c.FETClp then g.(Out := 0) else SetGate.Step(c, g, Div(y * c.SidePathGcVal, c.SidePathGcMux))
  }

  /** The gain control: the gate, then the sliding filter's values looked
    * up for the new gate output; the filters are not touched. */
  function Control(c: Config, ch: Channel, y: int): (r: Channel)
    requires c.Valid()
    ensures r.h1 == ch.h1 && r.h2 == ch.h2
    ensures c.FETClp ==> r.gate == ch.gate.(Out := 0)
    ensures r.gate == ControlGate(c, ch.gate, y)
    ensures r.vals == HPF2SetVals.SetVals(c, r.gate.Out)
  {
    var g := ControlGate(c, ch.gate, y);
    ch.(gate := g, vals := HPF2SetVals.SetVals(c, g.Out))
  }

  /** The fixed filter of types 1 and 3 as a check. */
  function FirstCheck(c: Config, ch: Channel, x: int): (r: HPF1.Stepped)
    requires c.Valid()
    ensures HPF1First(c) ==> r == HPF1.Check(c, ch.h1, Gain(c, x))
    ensures !HPF1First(c) ==> r == HPF1.Stepped(Gain(c, x), ch.h1)
  {
    if HPF1First(c) then HPF1.Check(c, ch.h1, Gain(c, x)) else HPF1.Stepped(Gain(c, x), ch.h1)
  }

  /** SidePathCheck: a trial run through both high-pass filters as checks
    * and the diodes. No committed state changes: not the filters' previous
    * values, their DC filter slots, the gate or the sliding filter's
    * values. */
  function Check(c: Config, ch: Channel, x: int): (r: SideStep)
    requires c.Valid()
    ensures SameCommitted(r.ch, ch)
    ensures c.DiodeClipMinVal <= r.out <= c.DiodeClipMaxVal
    ensures var k := HPF2.Check(c, ch.vals, FirstCheck(c, ch, x).f, ch.h2, FirstCheck(c, ch, x).out);
            Clip(c, k.out) == DiodeClip.Clipped(r.out, r.cliped) && r.ch.h2.PrvOtTot == k.out
  {
    var k1 := FirstCheck(c, ch, x);
    var k2 := HPF2.Check(c, ch.vals, k1.f, ch.h2, k1.out);
    var d := Clip(c, k2.out);
    SideStep(d.value, d.cliped, ch.(h1 := k2.h1, h2 := k2.h2))
  }

  /** SidePath: the same run with both filters committed, followed by the
    * gain control on the unclipped filter output. */
  function Commit(c: Config, ch: Channel, x: int): (r: SideStep)
    requires c.Valid()
    ensures c.DiodeClipMinVal <= r.out <= c.DiodeClipMaxVal
    ensures c.FETClp ==> r.ch.gate.Out == 0
    ensures var m := Filters(c, ch.h1, ch.h2, ch.vals, x);
            Clip(c, m.out) == DiodeClip.Clipped(r.out, r.cliped) && r.ch == Control(c, ch.(h1 := m.h1, h2 := m.h2), m.out)
  {
    var m := Filters(c, ch.h1, ch.h2, ch.vals, x);
    var d := Clip(c, m.out);
    SideStep(d.value, d.cliped, Control(c, ch.(h1 := m.h1, h2 := m.h2), m.out))
  }

  /** The filter half of SidePath: the gain, the fixed filter of types 1
    * and 3 committed, and the sliding filter committed. */
  function Filters(c: Config, h1: HPF1.Filt, h2: HPF2.Filt, v: HPF2SetVals.Vals, x: int): (r: HPF2.Stepped)
    requires c.Valid()
    ensures var m1 := if HPF1First(c) then HPF1.Commit(c, h1, Gain(c, x)) else HPF1.Stepped(Gain(c, x), h1);
            r == HPF2.Commit(c, v, m1.f, h2, m1.out)
  {
    var m1 := if HPF1First(c) then HPF1.Commit(c, h1, Gain(c, x)) else HPF1.Stepped(Gain(c, x), h1);
    HPF2.Commit(c, v, m1.f, h2, m1.out)
  }

  /** SidePathUpdate: commit both filters from what the last check
    * recorded, run the gain control on the total the check returned and
    * return that total through the diodes. */
  function Update(c: Config, ch: Channel): (r: SideStep)
    requires c.Valid()
    ensures c.DiodeClipMinVal <= r.out <= c.DiodeClipMaxVal
    ensures Clip(c, ch.h2.PrvOtTot) == DiodeClip.Clipped(r.out, r.cliped)
    ensures r.ch == Control(c, ch.(h1 := HPF1.Update(c, ch.h1), h2 := HPF2.Update(c, ch.h2)), ch.h2.PrvOtTot)
    ensures c.FETClp ==> r.ch.gate.Out == 0
  {
    var y := ch.h2.PrvOtTot;
    var d := Clip(c, y);
    SideStep(d.value, d.cliped, Control(c, ch.(h1 := HPF1.Update(c, ch.h1), h2 := HPF2.Update(c, ch.h2)), y))
  }

  /** The priming at initialisation: the gate is run once on a zero sample
    * and the sliding filter's values are looked up for its output; with
    * both stages zeroed, the gate output becomes zero. */
  function Prime(c: Config, ch: Channel): (r: Channel)
    requires c.Valid()
    ensures r.h1 == ch.h1 && r.h2 == ch.h2
    ensures ch.gate.PvrSmp1 == 0 && ch.gate.PvrSmp2 == 0 ==>
              r.gate == SetGate.Zero && r.vals == HPF2SetVals.SetVals(c, 0)
  {
    SetGate.ZeroAtRest(c, ch.gate);
    var g := SetGate.Step(c, ch.gate, 0);
    ch.(gate := g, vals := HPF2SetVals.SetVals(c, g.Out))
  }

  /** A commit returns exactly what a check from the same state returns,
    * flag included. */
  lemma CommitMatchesCheck(c: Config, ch: Channel, x: int)
    requires c.Valid()
    ensures Commit(c, ch, x).out == Check(c, ch, x).out
    ensures Commit(c, ch, x).cliped == Check(c, ch, x).cliped
  {
  }

  /** A check depends on the committed state only: whatever earlier
    * checks left in the shadow copies is overwritten, so two states with
    * the same committed part give the same result and the same new state. */
  lemma CheckIgnoresShadow(c: Config, ch: Channel, ch': Channel, x: int)
    requires c.Valid() && SameCommitted(ch, ch')
    ensures Check(c, ch, x) == Check(c, ch', x)
  {
    HPF1.CheckIgnoresShadow(c, ch.h1, ch'.h1, Gain(c, x));
    var k1, k1' := FirstCheck(c, ch, x), FirstCheck(c, ch', x);
    HPF2.CheckIgnoresShadow(c, ch.vals, k1.f, k1'.f, ch.h2, ch'.h2, k1.out);
  }

  /** A check leaves the gate and the sliding filter's values alone. */
  lemma CheckKeepsControl(c: Config, ch: Channel, x: int)
    requires c.Valid()
    ensures Check(c, ch, x).ch.gate == ch.gate && Check(c, ch, x).ch.vals == ch.vals
  {
  }

  /** An update after a check returns what the check returned, and leaves
    * the same gate, the same sliding-filter values and the same committed
    * HPF1 state as a commit of the same sample; HPF2's previous input
    * agrees too (its previous output may differ, see HPF2.UpdateDiffersFromCommit). */
  lemma CheckThenUpdate(c: Config, ch: Channel, x: int)
    requires c.Valid()
    ensures var k := Check(c, ch, x);
            var u := Update(c, k.ch);
            var m := Commit(c, ch, x);
            && u.out == k.out && u.cliped == k.cliped
            && u.ch.gate == m.ch.gate && u.ch.vals == m.ch.vals
            && HPF1.SameCommitted(u.ch.h1, m.ch.h1)
            && u.ch.h2.PrvIn == m.ch.h2.PrvIn
  {
    var g := Gain(c, x);
    var k1 := FirstCheck(c, ch, x);
    var k2 := HPF2.Check(c, ch.vals, k1.f, ch.h2, k1.out);
    if HPF1First(c) {
      HPF1.CheckThenUpdate(c, ch.h1, g);
    } else {
      var pot := HPF2.PotAfter(c, ch.vals, ch.h2, k1.out);
      if HPF2.PotThroughHPF1(c) {
        HPF1.CheckThenUpdate(c, ch.h1, pot);
      }
    }
    HPF2.CheckThenUpdate(c, ch.vals, k1.f, ch.h2, k1.out);
  }
}
