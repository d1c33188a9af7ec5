// The library's constants (Param.h, SetGate.h, HPF2SetVals.h, HPF1.h) and
// the part of the session state that stays fixed while samples are
// processed: the filter coefficients, multipliers, clip limits and lookup
// tables that initialisation computes (most of them in floating point) and
// that the per-sample routines only read.

module Params {
  import opened CInt

  /** Channels: 1 (mono) or 2 (stereo); per-channel slots are indexed Chn-1. */
  const MaxChnl := 2

  /** The channel limit, for proofs that hide definitions. */
  lemma MaxChnlIs()
    ensures MaxChnl == 2
  {
  }

  /** Voltages are held in nanovolts. */
  const VltMux := 1_000_000_000

  /** Sample multipliers for 24, 16 and 8 bit audio. */
  const SMux24 := 238
  const SMux16 := 61035
  const SMux08 := 15624980

  /** FET source voltages chosen by filter type before calibration. */
  const FETSVt1 := 45 * 256153657
  const FETSVt2 := 5 * 2291199481
  const FETSVt3 := 15 * 768460969
  const FETSVt4 := 13 * 883905461

  /** Side-path amplitudes chosen by filter type before calibration. */
  const SidAmp1: real := 3.3394756317
  const SidAmp2: real := 3.3268103599
  const SidAmp3: real := 3.3394756317
  const SidAmp4: real := 2.4765062332

  /** Gate voltage set by dolbyb_init. */
  const FETGVtDefault := 75000 * 100000

  /** The FET pinch-off voltage, in nanovolts, gives the control range. */
  const VgsOffNano := -4 * VltMux

  /** The 2.7 kOhm gain control resistor. */
  const GCR1 := 2700

  /** Positions of the two gain-control tables (SetGate.h). */
  const SetGateTab1St := 25
  const SetGateTab1Ed := 1000
  const SetGateTab2St := 1
  const SetGateTab2Ed := 700

  /** Entries allocated for each gain-control table. */
  const SetGateTabLen := SetGateTab1Ed - SetGateTab1St + 1

  /** Divisors that turn voltage differences into table positions and the
    * 0.6 V drop of the diode in the second stage (SetGate.c). */
  const SetGateTabPosDiv1 := VltMux / 100
  const SetGateTabPosDiv2 := VltMux / 1000
  const SetGateDioVlt := VltMux * 6 / 10

  /** The sliding filter's tables have TableSize + 1 entries (HPF2SetVals.h). */
  const HPF2SetValsTableSize := 1000
  const HPF2SetValsFltAttMux := 1000000

  /** HPF1 and HPF2 each own one DC filter slot per channel; HPF2's slots
    * follow HPF1's. */
  const HPF1NumberOfFilters := MaxChnl

  /** The fixed session parameters the per-sample routines read. */
  datatype Config = Config(
    FltTyp: int,
    FETClp: bool,
    FETGVt: int,
    FETSVt: int,
    DiodeClipMinVal: int,
    DiodeClipMaxVal: int,
    DCfilterAlpMux: int,
    DCfilterAlp: int,
    HPF1Alp: int,
    HPF1AlpMux: int,
    HPF2UpSmp: int,
    HPF2SetValsPotTab: seq<int>,
    HPF2SetValsAlpTab: seq<int>,
    HPF2SetValsFLTATb: seq<int>,
    HPF2SetValsPotMux: int,
    HPF2SetValsAlpMux: int,
    HPF2SetValsMaxVlt: int,
    HPF2SetValsTabRes: int,
    SetGateAttMux: int,
    SetGateA1Mux: int,
    SetGateA2Mux: int,
    SetGateAttTab: seq<int>,
    SetGateAlpTab1: seq<int>,
    SetGateAlpTab2: seq<int>,
    SetGateMinSmp: int,
    SetGateMaxSmp: int,
    SidePathGainMux: int,
    SidePathGainVal: int,
    SidePathGcMux: int,
    SidePathGcVal: int)
  {
    /** What initialisation guarantees before the first sample: positive
      * multipliers and divisors, tables of the allocated sizes, symmetric
      * clip limits, a table resolution that maps the whole control range
      * onto exactly TableSize steps, and a valid filter type. */
    predicate Valid()
    {
      && 1 <= FltTyp <= 4
      && DiodeClipMaxVal >= 0 && DiodeClipMinVal == -DiodeClipMaxVal
      && DCfilterAlpMux > 0
      && HPF1AlpMux > 0
      && HPF2UpSmp >= 1
      && |HPF2SetValsPotTab| == HPF2SetValsTableSize + 1
      && |HPF2SetValsAlpTab| == HPF2SetValsTableSize + 1
      && |HPF2SetValsFLTATb| == HPF2SetValsTableSize + 1
      && HPF2SetValsPotMux > 0
      && HPF2SetValsAlpMux > 0
      && HPF2SetValsMaxVlt >= 0
      && HPF2SetValsTabRes > 0
      && Div(HPF2SetValsMaxVlt, HPF2SetValsTabRes) == HPF2SetValsTableSize
      && SetGateAttMux > 0 && SetGateA1Mux > 0 && SetGateA2Mux > 0
      && |SetGateAttTab| == SetGateTabLen
      && |SetGateAlpTab1| == SetGateTabLen
      && |SetGateAlpTab2| == SetGateTabLen
      && SetGateMaxSmp >= 0 && SetGateMinSmp == -SetGateMaxSmp
      && SidePathGainMux > 0
      && SidePathGcMux > 0
    }

    /** The FET source voltage plays no part in validity. */
    lemma ValidWithSVt(v: int)
      ensures this.(FETSVt := v).Valid() == Valid()
    {
    }

    /** The shape the floating-point construction gives the coefficients:
      * every filter alpha is a fraction between 0 and 1 of its multiplier. */
    predicate Shaped()
      requires Valid()
    {
      && 0 <= DCfilterAlp <= DCfilterAlpMux
      && 0 <= HPF1Alp <= HPF1AlpMux
      && (forall i :: 0 <= i < |HPF2SetValsAlpTab| ==> 0 <= HPF2SetValsAlpTab[i] <= HPF2SetValsAlpMux)
      && (forall i :: 0 <= i < |SetGateAlpTab1| ==> 0 <= SetGateAlpTab1[i] <= SetGateA1Mux)
      && (forall i :: 0 <= i < |SetGateAlpTab2| ==> 0 <= SetGateAlpTab2[i] <= SetGateA2Mux)
    }
  }
}
