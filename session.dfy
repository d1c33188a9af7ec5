// The library's session object (dolbyb_t, dolbyb.h): every routine of the
// library reads and updates the fields of one structure in place. The class
// below keeps those fields; each method does what its C routine does to
// them, and its contract ties the new state to the value-level definitions
// of the per-component modules.
//
// The fields that initialisation sets and the per-sample routines only
// read are kept together in one record, cfg, with the structure's own
// field names (Params.Config). The fixed-size per-channel arrays are
// sequences of length MaxChnl (the DC filter has four slots: HPF1's two,
// then HPF2's two); the tables the initialisation allocates are sequences,
// empty while unallocated. The values the C code computes in floating
// point (filter alphas, their multipliers, the gate and sliding-filter
// tables, gains, clip limits, the calibration's amplitude search and sine
// values) come in as parameters.

module Session {
  import opened CInt
  import opened Params
  import DCfilter
  import DiodeClip
  import HPF1
  import HPF2
  import HPF2SetVals
  import SetGate
  import SidePath
  import FindOutSmp
  import Mixers
  import Cal = Calibrate
  import Libdolbyb

  /** A per-channel array. */
  type Pair = s: seq<int> | |s| == MaxChnl witness [0, 0]

  /** The DC filter's array: one slot per channel for HPF1, then for HPF2. */
  type Quad = s: seq<int> | |s| == DCfilter.NumberOfFilters witness [0, 0, 0, 0]

  /** An array element, or 0 outside the array. */
  function At(s: seq<int>, i: int): int
  {
    if 0 <= i < |s| then s[i] else 0
  }

  /** Reading an updated array. */
  lemma AtUpdate(s: seq<int>, i: int, v: int, j: int)
    requires 0 <= i < |s|
    ensures At(s[i := v], j) == if i == j then v else At(s, j)
  {
  }

  /** Writing bs into the buffer from position pos: the bytes before pos
    * and after the written ones are kept. */
  method Put(outp: array<Libdolbyb.byte>, pos: nat, bs: seq<Libdolbyb.byte>)
    requires pos + |bs| <= outp.Length
    modifies outp
    ensures outp[..] == old(outp[..])[..pos] + bs + old(outp[..])[pos + |bs|..]
  {
    ghost var o := outp[..];
    for i := 0 to |bs|
      invariant outp[..] == o[..pos] + bs[..i] + o[pos + i..]
    {
      ghost var before := outp[..];
      outp[pos + i] := bs[i];
      PutStep(o, before, outp[..], pos, bs, i);
    }
    assert bs[..|bs|] == bs;
  }

  /** One byte more of bs written over o at pos. */
  lemma PutStep<T>(o: seq<T>, a: seq<T>, a': seq<T>, pos: nat, bs: seq<T>, i: nat)
    requires i < |bs| && pos + |bs| <= |o| && a == o[..pos] + bs[..i] + o[pos + i..]
    requires a' == a[pos + i := bs[i]]
    ensures a' == o[..pos] + bs[..i + 1] + o[pos + i + 1..]
  {
    var r := o[..pos] + bs[..i + 1] + o[pos + i + 1..];
    assert |r| == |a'|;
    forall j | 0 <= j < |r|
      ensures r[j] == a'[j]
    {
      if j < pos {
      } else if j < pos + i {
      } else if j == pos + i {
      } else {
      }
    }
  }

  /** Writing o just after the output a, in a buffer that holds a and
    * then rest, leaves a, o and what follows o in rest. */
  lemma Splice<T>(a: seq<T>, o: seq<T>, rest: seq<T>, full: seq<T>)
    requires full == a + rest && |o| <= |rest|
    ensures full[..|a|] + o + full[|a| + |o|..] == a + o + rest[|o|..]
  {
    assert full[..|a|] == a;
    assert full[|a| + |o|..] == rest[|o|..];
  }

  /** The library handles two channels. */
  lemma TwoChannels()
    ensures MaxChnl == 2
  {
  }

  /** SetGateMax64: the double 9.0e18 the gate's sample range is derived
    * from. */
  const SetGateMax64 := 9_000_000_000_000_000_000

  /** The most a quotient of SetGateMax64, rounded to a double and
    * truncated, times its divisor can reach: rounding adds at most 2^-53
    * of SetGateMax64, which is below 1000. */
  const SetGateProdMax := SetGateMax64 + 999

  /** The largest int64 value. */
  const Int64Max := 0x7FFF_FFFF_FFFF_FFFF

  /** The gate's products stay within int64. */
  lemma ProdMaxFits()
    ensures SetGateProdMax < Int64Max
  {
  }

  /** SetGateSetPrvRes's starting value for the resistance search. */
  const SetGatePrvResStart := GCR1 + 1_000_000

  /** A quarter of anything up to a quotient whose product with the
    * multiplier stays within SetGateProdMax, times four times the
    * multiplier, stays within SetGateProdMax. */
  lemma QuarterFits(m: int, quot: int, mux: int)
    requires mux > 0 && 0 <= m <= quot && quot * mux <= SetGateProdMax
    ensures 0 <= Div(m, 4) && 4 * Div(m, 4) * mux <= SetGateProdMax
  {
    DivBounds(m, 4);
    var q := Div(m, 4);
    DivSign(m, 4);
    MulMono(mux, 4 * q, m);
    MulMono(mux, m, quot);
    assert 4 * q * mux == mux * (4 * q);
    assert quot * mux == mux * quot;
  }

  /** A resistance search that started from start ended at r: r is not
    * too high, and it is the start itself or the resistance above it is
    * too high. */
  ghost predicate Found(tooHigh: nat -> bool, start: int, r: nat)
  {
    !tooHigh(r) && r <= start && (r < start ==> tooHigh(r + 1))
  }

  /** The values the initialisation computes in floating point from the
    * sample rate, the filter type, the up-sampling factor, SidAmp and
    * ThGain:
    * - SetGateTooHigh(p)(r): SetGateResTooHigh for the input voltage of
    *   stage-1 table position p (p / 100 V) and the resistance r;
    * - SetGateA1MaxMux(r): the largest alpha-table-1 multiplier for the
    *   resistance found at the top of the table;
    * - SetGateAttOf(r), SetGateAlp1Of(r): the stage-1 table entries for
    *   the resistance r found at a position; SetGateAlp2Of(p): the stage-2
    *   table entry at position p;
    * - SetGateQuotOf(mux): SetGateMax64 / mux, a double quotient
    *   truncated to int64;
    * - HPF2SetValsAlpVals: the rounded alphas before
    *   HPF2SetVals.MakeAlpTable makes them non-decreasing. */
  datatype Built = Built(
    DCfilterAlpMux: int, DCfilterAlp: int,
    HPF1AlpMux: int, HPF1Alp: int,
    SetGateTooHigh: int -> nat -> bool,
    SetGateAttMux: int, SetGateA1Mux: int, SetGateA1MaxMux: nat -> int,
    SetGateA2Mux: int, SetGateA2MaxMux: int,
    SetGateAttOf: nat -> int, SetGateAlp1Of: nat -> int, SetGateAlp2Of: int -> int,
    SetGateQuotOf: int -> int,
    HPF2SetValsPotMux: int, HPF2SetValsPotTab: seq<int>,
    HPF2SetValsAlpMux: int, HPF2SetValsAlpVals: seq<int>, HPF2SetValsFLTATb: seq<int>,
    DiodeClipMaxVal: int,
    SidePathGainMux: int, SidePathGainVal: int, SidePathGcMux: int, SidePathGcVal: int)
  {
    /** No table position finds a resistance of GCR1 or less too high:
      * below the 2.7 kOhm resistor's own value the diode carries no
      * current. */
    ghost predicate LowResOk()
    {
      forall p: int, r: nat :: r <= GCR1 ==> !SetGateTooHigh(p)(r)
    }

    /** SetGateQuotOf(mux) is SetGateMax64 / mux divided as a double and
      * truncated to int64: never negative, and its product with mux exceeds
      * SetGateMax64 by no more than the rounding allows. */
    ghost predicate QuotOk()
    {
      forall mux: int :: mux > 0 ==> 0 <= SetGateQuotOf(mux) && SetGateQuotOf(mux) * mux <= SetGateProdMax
    }

    /** Positive multipliers, tables of the allocated sizes, LowResOk and
      * QuotOk. */
    ghost predicate Valid()
    {
      && DCfilterAlpMux > 0 && HPF1AlpMux > 0
      && LowResOk() && QuotOk()
      && SetGateAttMux > 0 && SetGateA1Mux > 0 && SetGateA2Mux > 0 && SetGateA2MaxMux > 0
      && (forall r: nat :: SetGateA1MaxMux(r) > 0)
      && HPF2SetValsPotMux > 0 && HPF2SetValsAlpMux > 0
      && |HPF2SetValsPotTab| == HPF2SetValsTableSize + 1
      && |HPF2SetValsAlpVals| == HPF2SetValsTableSize + 1
      && |HPF2SetValsFLTATb| == HPF2SetValsTableSize + 1
      && DiodeClipMaxVal >= 0
      && SidePathGainMux > 0 && SidePathGcMux > 0
    }
  }

  /** What the calibration needs, where the C code computes in floating
    * point or reads a file: the result the cache holds for this sample
    * rate, filter type and up-sampling, if any; the side amplitude the
    * amplitude search settles on; the source-voltage target as a function
    * of the reference level the test without noise reduction measures;
    * the encode test run as a function from a source voltage to its
    * result; the sine values of the test tone; and the values the final
    * side-path initialisation computes. */
  datatype Calibration = Calibration(
    cache: Libdolbyb.Option<(real, int)>,
    sideAmp: real, svtOf: int -> int, oracle: int -> int, sine: int -> int, recal: Built)

  class Dolbyb {
    // Parameters set by the caller (the filter type is cfg.FltTyp)
    var SmpSec: int
    var BDepth: int
    var NumChn: int
    var UpSamp: int
    var AllHig: bool
    var DecAdB: real
    var ThGndB: real

    // Session values (the FET clip flag and voltages are in cfg)
    var UpSmp: int
    var DecAMX: real
    var ThGain: real
    var InUS: int
    var SmpMux: int
    var SidAmp: real

    /** The fields the per-sample routines read and do not change. */
    var cfg: Config

    // DiodeClip
    var DiodeClipCliped: bool

    // DCfilter
    var DCfilterPrvVal: Quad
    var DCfilterPrvAccVal: Quad

    // SetGate
    var SetGatePvrSmp1: Pair
    var SetGatePvrSmp2: Pair
    var SetGateOut: Pair
    var SetGatePrvResVal: int

    // FindOutSmp
    var FindOutSmpPrvIn: Pair
    var FindOutSmpPrvOt: Pair
    var FindOutSmpMaxDif: int

    // Calibrate (CalibrateSmpCnt is a static variable of Calibrate.c)
    var CalibrateSinTab: seq<int>
    var CalibrateSinTabMax: int
    var CalibrateSmpCnt: nat
    var CalibrateWrmSam: int
    var CalibrateEndSam: int

    // HPF1
    var HPF1PrvIn: Pair
    var HPF1PrvOt: Pair
    var HPF1PrvInVal: Pair
    var HPF1PrvOtVal: Pair

    // HPF2
    var HPF2PrvIn: Pair
    var HPF2PrvOt: Pair
    var HPF2PrvInVal: Pair
    var HPF2PrvOtVal: Pair
    var HPF2PrvOtTot: Pair

    // HPF2SetVals
    var HPF2SetValsPot: Pair
    var HPF2SetValsAlp: Pair
    var HPF2SetValsFPt: Pair

    // -------------------------------------------------------------------
    // Views of the fields as the per-component modules' values

    /** DC filter slot j (0 .. 3). */
    ghost function DCSlot(j: int): DCfilter.Slot
      reads this`DCfilterPrvVal, this`DCfilterPrvAccVal
    {
      DCfilter.Slot(At(DCfilterPrvVal, j), At(DCfilterPrvAccVal, j))
    }

    /** HPF1's state for channel k (0 or 1), with its DC filter slot k. */
    ghost function H1(k: int): HPF1.Filt
      reads this`HPF1PrvIn, this`HPF1PrvOt, this`HPF1PrvInVal, this`HPF1PrvOtVal
      reads this`DCfilterPrvVal, this`DCfilterPrvAccVal
    {
      HPF1.Filt(At(HPF1PrvIn, k), At(HPF1PrvOt, k), At(HPF1PrvInVal, k), At(HPF1PrvOtVal, k), DCSlot(k))
    }

    /** HPF2's state for channel k, with its DC filter slot
      * HPF1NumberOfFilters + k. */
    ghost function H2(k: int): HPF2.Filt
      reads this`HPF2PrvIn, this`HPF2PrvOt, this`HPF2PrvInVal, this`HPF2PrvOtVal, this`HPF2PrvOtTot
      reads this`DCfilterPrvVal, this`DCfilterPrvAccVal
    {
      HPF2.Filt(At(HPF2PrvIn, k), At(HPF2PrvOt, k), At(HPF2PrvInVal, k), At(HPF2PrvOtVal, k),
                At(HPF2PrvOtTot, k), DCSlot(HPF1NumberOfFilters + k))
    }

    /** The gate's state for channel k. */
    ghost function Gate(k: int): SetGate.Gate
      reads this`SetGatePvrSmp1, this`SetGatePvrSmp2, this`SetGateOut
    {
      SetGate.Gate(At(SetGatePvrSmp1, k), At(SetGatePvrSmp2, k), At(SetGateOut, k))
    }

    /** The sliding filter's values for channel k. */
    ghost function Vals(k: int): HPF2SetVals.Vals
      reads this`HPF2SetValsPot, this`HPF2SetValsAlp, this`HPF2SetValsFPt
    {
      HPF2SetVals.Vals(At(HPF2SetValsPot, k), At(HPF2SetValsAlp, k), At(HPF2SetValsFPt, k))
    }

    /** FindOutSmp's previous input for channel k. */
    ghost function PrvIn(k: int): int
      reads this`FindOutSmpPrvIn
    {
      At(FindOutSmpPrvIn, k)
    }

    /** FindOutSmp's previous output for channel k. */
    ghost function PrvOt(k: int): int
      reads this`FindOutSmpPrvOt
    {
      At(FindOutSmpPrvOt, k)
    }

    /** The side path's state for channel k. */
    ghost function Chan(k: int): SidePath.Channel
      reads this`HPF1PrvIn, this`HPF1PrvOt, this`HPF1PrvInVal, this`HPF1PrvOtVal
      reads this`HPF2PrvIn, this`HPF2PrvOt, this`HPF2PrvInVal, this`HPF2PrvOtVal, this`HPF2PrvOtTot
      reads this`DCfilterPrvVal, this`DCfilterPrvAccVal
      reads this`SetGatePvrSmp1, this`SetGatePvrSmp2, this`SetGateOut
      reads this`HPF2SetValsPot, this`HPF2SetValsAlp, this`HPF2SetValsFPt
    {
      SidePath.Channel(H1(k), H2(k), Gate(k), Vals(k))
    }

    /** Channel k's side path, part by part. */
    lemma ChanParts(k: int)
      ensures Chan(k) == SidePath.Channel(H1(k), H2(k), Gate(k), Vals(k))
    {
    }

    /** FindOutSmp's previous input and output for channel k, as array
      * elements. */
    lemma PrvParts(k: int)
      requires 0 <= k < MaxChnl
      ensures k < |FindOutSmpPrvIn| && PrvIn(k) == FindOutSmpPrvIn[k]
      ensures k < |FindOutSmpPrvOt| && PrvOt(k) == FindOutSmpPrvOt[k]
    {
    }

    /** Channel k is at the decoder state q, its running total aside. */
    ghost predicate DecState(k: int, q: Libdolbyb.DecPasses)
      reads this`HPF1PrvIn, this`HPF1PrvOt, this`HPF1PrvInVal, this`HPF1PrvOtVal
      reads this`HPF2PrvIn, this`HPF2PrvOt, this`HPF2PrvInVal, this`HPF2PrvOtVal, this`HPF2PrvOtTot
      reads this`DCfilterPrvVal, this`DCfilterPrvAccVal
      reads this`SetGatePvrSmp1, this`SetGatePvrSmp2, this`SetGateOut
      reads this`HPF2SetValsPot, this`HPF2SetValsAlp, this`HPF2SetValsFPt
      reads this`DiodeClipCliped, this`FindOutSmpPrvIn, this`FindOutSmpPrvOt
    {
      Chan(k) == q.ch && DiodeClipCliped == q.cliped && PrvIn(k) == q.prvIn && PrvOt(k) == q.prvOt
    }

    /** n decoder passes of x from ch0, cl0, in0 and ot0 have brought
      * channel k to their state, and tot is their total. */
    ghost predicate DecAfter(k: int, p: Libdolbyb.Setup, ch0: SidePath.Channel, cl0: bool, in0: int, ot0: int,
                             x: int, n: nat, tot: int)
      reads this`HPF1PrvIn, this`HPF1PrvOt, this`HPF1PrvInVal, this`HPF1PrvOtVal
      reads this`HPF2PrvIn, this`HPF2PrvOt, this`HPF2PrvInVal, this`HPF2PrvOtVal, this`HPF2PrvOtTot
      reads this`DCfilterPrvVal, this`DCfilterPrvAccVal
      reads this`SetGatePvrSmp1, this`SetGatePvrSmp2, this`SetGateOut
      reads this`HPF2SetValsPot, this`HPF2SetValsAlp, this`HPF2SetValsFPt
      reads this`DiodeClipCliped, this`FindOutSmpPrvIn, this`FindOutSmpPrvOt
    {
      p.Valid() && var q := Libdolbyb.DecodePasses(p, ch0, cl0, in0, ot0, x, n); DecState(k, q) && tot == q.tot
    }

    /** What DecAfter says. */
    lemma DecAfterIs(k: int, p: Libdolbyb.Setup, ch0: SidePath.Channel, cl0: bool, in0: int, ot0: int, x: int, n: nat, tot: int)
      requires p.Valid()
      ensures DecAfter(k, p, ch0, cl0, in0, ot0, x, n, tot)
              <==> var q := Libdolbyb.DecodePasses(p, ch0, cl0, in0, ot0, x, n); DecState(k, q) && tot == q.tot
    {
    }

    /** What DecState says. */
    lemma DecStateIs(k: int, q: Libdolbyb.DecPasses)
      ensures DecState(k, q) <==> Chan(k) == q.ch && DiodeClipCliped == q.cliped && PrvIn(k) == q.prvIn && PrvOt(k) == q.prvOt
    {
    }

    /** dolbyb_start has succeeded. */
    ghost predicate Started()
      reads this`cfg, this`SmpMux, this`InUS, this`NumChn, this`FindOutSmpMaxDif
    {
      cfg.Valid() && SmpMux > 0 && InUS >= 1 && 1 <= NumChn <= MaxChnl
      && FindOutSmpMaxDif >= FindOutSmp.MinMaxDif
    }

    /** Started spelled out, for proofs that hide definitions. */
    lemma StartedIs()
      ensures Started() <==>
              cfg.Valid() && SmpMux > 0 && InUS >= 1 && 1 <= NumChn <= MaxChnl
              && FindOutSmpMaxDif >= FindOutSmp.MinMaxDif
    {
    }

    /** What the frame loops read, for the sample format d. */
    ghost function Setup(d: Libdolbyb.Depth): Libdolbyb.Setup
      reads this`cfg, this`SmpMux, this`InUS, this`NumChn, this`FindOutSmpMaxDif
    {
      Libdolbyb.Setup(cfg, d, SmpMux, InUS, NumChn, FindOutSmpMaxDif)
    }

    /** A started session's setup for a sound sample format. */
    lemma SetupIs(d: Libdolbyb.Depth)
      requires Started() && Libdolbyb.Sound(d)
      ensures Setup(d).Valid() && Setup(d).c == cfg && Setup(d).maxDif == FindOutSmpMaxDif && Setup(d).d == d
      ensures Setup(d).inUS == InUS && Setup(d).smpMux == SmpMux && Setup(d).numChn == NumChn
      ensures cfg.Valid() && InUS >= 1 && SmpMux > 0 && 1 <= NumChn <= MaxChnl
    {
    }

    /** The frame loops' state, channel by channel. */
    lemma CoderIs()
      ensures Coder() == Libdolbyb.Coder([Chan(0), Chan(1)], FindOutSmpPrvIn, FindOutSmpPrvOt, DiodeClipCliped)
      ensures Coder().Shaped()
    {
    }

    /** What the frame loops change. */
    ghost function Coder(): Libdolbyb.Coder
      reads this`DCfilterPrvVal, this`DCfilterPrvAccVal
      reads this`HPF1PrvIn, this`HPF1PrvOt, this`HPF1PrvInVal, this`HPF1PrvOtVal
      reads this`HPF2PrvIn, this`HPF2PrvOt, this`HPF2PrvInVal, this`HPF2PrvOtVal, this`HPF2PrvOtTot
      reads this`SetGatePvrSmp1, this`SetGatePvrSmp2, this`SetGateOut
      reads this`HPF2SetValsPot, this`HPF2SetValsAlp, this`HPF2SetValsFPt
      reads this`FindOutSmpPrvIn, this`FindOutSmpPrvOt
      reads this`DiodeClipCliped
    {
      Libdolbyb.Coder([Chan(0), Chan(1)], FindOutSmpPrvIn, FindOutSmpPrvOt, DiodeClipCliped)
    }

    /** The first k samples of inp have gone through the encoder from the
      * state st0: the state is where they leave it, and outp holds their
      * output followed by what o0, the buffer's first contents, held
      * after it. */
    ghost predicate EncodedUpTo(d: Libdolbyb.Depth, inp: seq<Libdolbyb.byte>, outp: array<Libdolbyb.byte>,
                                o0: seq<Libdolbyb.byte>, st0: Libdolbyb.Coder, k: nat)
      reads this`HPF1PrvIn, this`HPF1PrvOt, this`HPF1PrvInVal, this`HPF1PrvOtVal
      reads this`HPF2PrvIn, this`HPF2PrvOt, this`HPF2PrvInVal, this`HPF2PrvOtVal, this`HPF2PrvOtTot
      reads this`DCfilterPrvVal, this`DCfilterPrvAccVal
      reads this`SetGatePvrSmp1, this`SetGatePvrSmp2, this`SetGateOut
      reads this`HPF2SetValsPot, this`HPF2SetValsAlp, this`HPF2SetValsFPt
      reads this`FindOutSmpPrvIn, this`FindOutSmpPrvOt, this`DiodeClipCliped
      reads this`cfg, this`SmpMux, this`InUS, this`NumChn, this`FindOutSmpMaxDif
      reads outp
    {
      && Setup(d).Valid() && Setup(d).d == d && st0.Shaped() && k * d.NumByt <= |inp|
      && |o0| == outp.Length && k * d.NumByt <= |o0|
      && var r := Libdolbyb.EncodeFrames(Setup(d), st0, inp, k);
         Coder() == r.st && outp[..] == r.out + o0[k * d.NumByt..]
    }

    /** What EncodedUpTo says. */
    lemma EncodedUpToIs(d: Libdolbyb.Depth, inp: seq<Libdolbyb.byte>, outp: array<Libdolbyb.byte>,
                        o0: seq<Libdolbyb.byte>, st0: Libdolbyb.Coder, k: nat)
      ensures EncodedUpTo(d, inp, outp, o0, st0, k)
              <==> && Setup(d).Valid() && Setup(d).d == d && st0.Shaped() && k * d.NumByt <= |inp|
                   && |o0| == outp.Length && k * d.NumByt <= |o0|
                   && var r := Libdolbyb.EncodeFrames(Setup(d), st0, inp, k);
                      Coder() == r.st && outp[..] == r.out + o0[k * d.NumByt..]
    {
    }

    /** The first k samples of inp have gone through the decoder from the
      * state st0 into outp. */
    ghost predicate DecodedUpTo(d: Libdolbyb.Depth, inp: seq<Libdolbyb.byte>, outp: array<Libdolbyb.byte>,
                                o0: seq<Libdolbyb.byte>, st0: Libdolbyb.Coder, k: nat)
      reads this`HPF1PrvIn, this`HPF1PrvOt, this`HPF1PrvInVal, this`HPF1PrvOtVal
      reads this`HPF2PrvIn, this`HPF2PrvOt, this`HPF2PrvInVal, this`HPF2PrvOtVal, this`HPF2PrvOtTot
      reads this`DCfilterPrvVal, this`DCfilterPrvAccVal
      reads this`SetGatePvrSmp1, this`SetGatePvrSmp2, this`SetGateOut
      reads this`HPF2SetValsPot, this`HPF2SetValsAlp, this`HPF2SetValsFPt
      reads this`FindOutSmpPrvIn, this`FindOutSmpPrvOt, this`DiodeClipCliped
      reads this`cfg, this`SmpMux, this`InUS, this`NumChn, this`FindOutSmpMaxDif
      reads outp
    {
      && Setup(d).Valid() && Setup(d).d == d && st0.Shaped() && k * d.NumByt <= |inp|
      && |o0| == outp.Length && k * d.NumByt <= |o0|
      && var r := Libdolbyb.DecodeFrames(Setup(d), st0, inp, k);
         Coder() == r.st && outp[..] == r.out + o0[k * d.NumByt..]
    }

    /** What DecodedUpTo says. */
    lemma DecodedUpToIs(d: Libdolbyb.Depth, inp: seq<Libdolbyb.byte>, outp: array<Libdolbyb.byte>,
                        o0: seq<Libdolbyb.byte>, st0: Libdolbyb.Coder, k: nat)
      ensures DecodedUpTo(d, inp, outp, o0, st0, k)
              <==> && Setup(d).Valid() && Setup(d).d == d && st0.Shaped() && k * d.NumByt <= |inp|
                   && |o0| == outp.Length && k * d.NumByt <= |o0|
                   && var r := Libdolbyb.DecodeFrames(Setup(d), st0, inp, k);
                      Coder() == r.st && outp[..] == r.out + o0[k * d.NumByt..]
    {
    }

    // -------------------------------------------------------------------
    // dolbyb_init

    /** dolbyb_init: everything zero (tables unallocated) but the
      * defaults: mono, 16 bits, filter type 4, decoder attenuation -5 dB,
      * threshold gain 0 dB and the default FET gate voltage. The C code
      * clears the structure and then sets the defaults; the fields are
      * given their final values at once here. */
    constructor ()
      ensures NumChn == 1 && BDepth == 16 && cfg.FltTyp == 4 && DecAdB == -5.0 && ThGndB == 0.0
      ensures cfg.FETGVt == FETGVtDefault
      ensures SmpSec == 0 && UpSamp == 0 && !AllHig && UpSmp == 0 && InUS == 0 && SmpMux == 0
      ensures !cfg.FETClp && cfg.FETSVt == 0 && SidAmp == 0.0 && ThGain == 0.0 && DecAMX == 0.0
      ensures !DiodeClipCliped
      ensures DCfilterPrvVal == [0, 0, 0, 0] && DCfilterPrvAccVal == [0, 0, 0, 0]
      ensures HPF1PrvIn == [0, 0] && HPF1PrvOt == [0, 0] && HPF1PrvInVal == [0, 0] && HPF1PrvOtVal == [0, 0]
      ensures HPF2PrvIn == [0, 0] && HPF2PrvOt == [0, 0] && HPF2PrvInVal == [0, 0]
      ensures HPF2PrvOtVal == [0, 0] && HPF2PrvOtTot == [0, 0]
      ensures SetGatePvrSmp1 == [0, 0] && SetGatePvrSmp2 == [0, 0] && SetGateOut == [0, 0]
      ensures HPF2SetValsPot == [0, 0] && HPF2SetValsAlp == [0, 0] && HPF2SetValsFPt == [0, 0]
      ensures FindOutSmpPrvIn == [0, 0] && FindOutSmpPrvOt == [0, 0]
      ensures cfg.SetGateAttTab == [] && cfg.SetGateAlpTab1 == [] && cfg.SetGateAlpTab2 == []
      ensures cfg.HPF2SetValsPotTab == [] && cfg.HPF2SetValsAlpTab == [] && cfg.HPF2SetValsFLTATb == []
      ensures CalibrateSinTab == [] && CalibrateSmpCnt == 0 && CalibrateWrmSam == 0 && CalibrateEndSam == 0
      ensures SetGatePrvResVal == 0 && FindOutSmpMaxDif == 0 && CalibrateSinTabMax == 0
      ensures && cfg.DiodeClipMinVal == 0 && cfg.DiodeClipMaxVal == 0
              && cfg.DCfilterAlpMux == 0 && cfg.DCfilterAlp == 0 && cfg.HPF1Alp == 0 && cfg.HPF1AlpMux == 0
              && cfg.HPF2UpSmp == 0 && cfg.HPF2SetValsPotMux == 0 && cfg.HPF2SetValsAlpMux == 0
              && cfg.HPF2SetValsMaxVlt == 0 && cfg.HPF2SetValsTabRes == 0
              && cfg.SetGateAttMux == 0 && cfg.SetGateA1Mux == 0 && cfg.SetGateA2Mux == 0
              && cfg.SetGateMinSmp == 0 && cfg.SetGateMaxSmp == 0
              && cfg.SidePathGainMux == 0 && cfg.SidePathGainVal == 0
              && cfg.SidePathGcMux == 0 && cfg.SidePathGcVal == 0
    {
      SmpSec, BDepth, NumChn, UpSamp, AllHig := 0, 16, 1, 0, false;
      DecAdB, ThGndB := -5.0, 0.0;
      UpSmp, DecAMX, ThGain, InUS, SmpMux, SidAmp := 0, 0.0, 0.0, 0, 0, 0.0;
      cfg := Config(4, false, FETGVtDefault, 0, 0, 0, 0, 0, 0, 0, 0, [], [], [], 0, 0, 0, 0,
                    0, 0, 0, [], [], [], 0, 0, 0, 0, 0, 0);
      DiodeClipCliped := false;
      DCfilterPrvVal, DCfilterPrvAccVal := [0, 0, 0, 0], [0, 0, 0, 0];
      SetGatePvrSmp1, SetGatePvrSmp2, SetGateOut := [0, 0], [0, 0], [0, 0];
      SetGatePrvResVal := 0;
      FindOutSmpPrvIn, FindOutSmpPrvOt, FindOutSmpMaxDif := [0, 0], [0, 0], 0;
      CalibrateSinTab, CalibrateSinTabMax, CalibrateSmpCnt := [], 0, 0;
      CalibrateWrmSam, CalibrateEndSam := 0, 0;
      HPF1PrvIn, HPF1PrvOt, HPF1PrvInVal, HPF1PrvOtVal := [0, 0], [0, 0], [0, 0], [0, 0];
      HPF2PrvIn, HPF2PrvOt, HPF2PrvInVal, HPF2PrvOtVal, HPF2PrvOtTot := [0, 0], [0, 0], [0, 0], [0, 0], [0, 0];
      HPF2SetValsPot, HPF2SetValsAlp, HPF2SetValsFPt := [0, 0], [0, 0], [0, 0];
    }

    // -------------------------------------------------------------------
    // DiodeClip.c

    /** DiodeClipInit: symmetric limits from the float-built maximum. */
    method DiodeClipInit(maxVal: int)
      modifies this`cfg
      ensures cfg == old(cfg).(DiodeClipMaxVal := maxVal, DiodeClipMinVal := -maxVal)
    {
      cfg := cfg.(DiodeClipMaxVal := maxVal);
      cfg := cfg.(DiodeClipMinVal := -cfg.DiodeClipMaxVal);
    }

    /** DiodeClip: the sample limited to the window, and the flag. */
    method DiodeClipStep(x: int) returns (r: int)
      requires cfg.DiodeClipMinVal <= cfg.DiodeClipMaxVal
      modifies this`DiodeClipCliped
      ensures DiodeClip.Clipped(r, DiodeClipCliped) == DiodeClip.Clip(cfg.DiodeClipMinVal, cfg.DiodeClipMaxVal, x)
    {
      if x > cfg.DiodeClipMaxVal {
        DiodeClipCliped := true;
        return cfg.DiodeClipMaxVal;
      }
      if x < cfg.DiodeClipMinVal {
        DiodeClipCliped := true;
        return cfg.DiodeClipMinVal;
      }
      DiodeClipCliped := false;
      r := x;
    }

    // -------------------------------------------------------------------
    // DCfilter.c

    /** DCfilterInit: the float-built alpha and multiplier, all four slots
      * emptied. */
    method DCfilterInit(alpMux: int, alp: int)
      modifies this`cfg, this`DCfilterPrvVal, this`DCfilterPrvAccVal
      ensures cfg == old(cfg).(DCfilterAlpMux := alpMux, DCfilterAlp := alp)
      ensures DCfilterPrvVal == [0, 0, 0, 0] && DCfilterPrvAccVal == [0, 0, 0, 0]
    {
      cfg := cfg.(DCfilterAlpMux := alpMux, DCfilterAlp := alp);
      for flt := 0 to DCfilter.NumberOfFilters
        modifies this`DCfilterPrvVal, this`DCfilterPrvAccVal
        invariant forall j :: 0 <= j < flt ==> DCfilterPrvVal[j] == 0 && DCfilterPrvAccVal[j] == 0
      {
        DCfilterPrvVal := DCfilterPrvVal[flt := 0];
        DCfilterPrvAccVal := DCfilterPrvAccVal[flt := 0];
      }
    }

    /** DCfilter: one sample through slot flt (1 .. 4); only that slot
      * changes. */
    method DCfilterStep(x: int, flt: int) returns (r: int)
      requires 1 <= flt <= DCfilter.NumberOfFilters && cfg.DCfilterAlpMux > 0
      modifies this`DCfilterPrvVal, this`DCfilterPrvAccVal
      ensures var o := DCfilter.Step(old(DCSlot(flt - 1)), x, cfg.DCfilterAlp, cfg.DCfilterAlpMux);
              && r == o.out
              && DCfilterPrvVal == old(DCfilterPrvVal)[flt - 1 := o.slot.PrvVal]
              && DCfilterPrvAccVal == old(DCfilterPrvAccVal)[flt - 1 := o.slot.PrvAccVal]
    {
      var outVal := x - DCfilterPrvVal[flt - 1];
      var acuVal := outVal * cfg.DCfilterAlp;
      acuVal := acuVal + DCfilterPrvAccVal[flt - 1];
      outVal := Div(acuVal, cfg.DCfilterAlpMux);
      DCfilterPrvAccVal := DCfilterPrvAccVal[flt - 1 := Mod(acuVal, cfg.DCfilterAlpMux)];
      outVal := outVal + DCfilterPrvVal[flt - 1];
      DCfilterPrvVal := DCfilterPrvVal[flt - 1 := outVal];
      r := outVal;
    }

    // -------------------------------------------------------------------
    // HPF1.c

    /** HPF1Init: the float-built alpha and multiplier; the committed
      * previous values of both channels are zeroed. */
    method HPF1Init(alpMux: int, alp: int)
      modifies this`cfg, this`HPF1PrvIn, this`HPF1PrvOt
      ensures cfg == old(cfg).(HPF1AlpMux := alpMux, HPF1Alp := alp)
      ensures HPF1PrvIn == [0, 0] && HPF1PrvOt == [0, 0]
    {
      cfg := cfg.(HPF1AlpMux := alpMux, HPF1Alp := alp);
      for fltCnt := 0 to HPF1NumberOfFilters
        modifies this`HPF1PrvIn, this`HPF1PrvOt
        invariant forall j :: 0 <= j < fltCnt ==> HPF1PrvIn[j] == 0 && HPF1PrvOt[j] == 0
      {
        HPF1PrvIn := HPF1PrvIn[fltCnt := 0];
        HPF1PrvOt := HPF1PrvOt[fltCnt := 0];
      }
    }

    /** HPF1SetPrevious: the output through the channel's DC filter slot,
      * then the previous input and the corrected previous output. */
    method HPF1SetPrevious(x: int, y: int, chn: int)
      requires cfg.Valid() && 1 <= chn <= MaxChnl
      modifies this`HPF1PrvIn, this`HPF1PrvOt, this`DCfilterPrvVal, this`DCfilterPrvAccVal
      ensures H1(chn - 1) == HPF1.SetPrevious(cfg, old(H1(chn - 1)), x, y)
      ensures H1(2 - chn) == old(H1(2 - chn)) && H2(chn - 1) == old(H2(chn - 1)) && H2(2 - chn) == old(H2(2 - chn))
    {
      var lpFilt := DCfilterStep(y, chn);
      HPF1PrvIn := HPF1PrvIn[chn - 1 := x];
      HPF1PrvOt := HPF1PrvOt[chn - 1 := y - lpFilt];
    }

    /** HPF1Check: the filter output from the committed state, recorded in
      * the shadow copies with its input. */
    method HPF1Check(x: int, chn: int) returns (r: int)
      requires cfg.Valid() && 1 <= chn <= MaxChnl
      modifies this`HPF1PrvInVal, this`HPF1PrvOtVal
      ensures var k := HPF1.Check(cfg, old(H1(chn - 1)), x);
              r == k.out && H1(chn - 1) == k.f
      ensures H1(2 - chn) == old(H1(2 - chn))
    {
      HPF1PrvInVal := HPF1PrvInVal[chn - 1 := x];
      var outVal := HPF1PrvOt[chn - 1] + x - HPF1PrvIn[chn - 1];
      outVal := outVal * cfg.HPF1Alp;
      outVal := Div(outVal, cfg.HPF1AlpMux);
      HPF1PrvOtVal := HPF1PrvOtVal[chn - 1 := outVal];
      r := outVal;
    }

    /** HPF1: the same output as a check, committed. */
    method HPF1Commit(x: int, chn: int) returns (r: int)
      requires cfg.Valid() && 1 <= chn <= MaxChnl
      modifies this`HPF1PrvIn, this`HPF1PrvOt, this`DCfilterPrvVal, this`DCfilterPrvAccVal
      ensures var m := HPF1.Commit(cfg, old(H1(chn - 1)), x);
              r == m.out && H1(chn - 1) == m.f
      ensures H1(2 - chn) == old(H1(2 - chn)) && H2(chn - 1) == old(H2(chn - 1)) && H2(2 - chn) == old(H2(2 - chn))
    {
      var outVal := HPF1PrvOt[chn - 1] + x - HPF1PrvIn[chn - 1];
      outVal := outVal * cfg.HPF1Alp;
      outVal := Div(outVal, cfg.HPF1AlpMux);
      HPF1SetPrevious(x, outVal, chn);
      r := outVal;
    }

    /** HPF1Update: commit what the last check recorded. */
    method HPF1Update(chn: int)
      requires cfg.Valid() && 1 <= chn <= MaxChnl
      modifies this`HPF1PrvIn, this`HPF1PrvOt, this`DCfilterPrvVal, this`DCfilterPrvAccVal
      ensures H1(chn - 1) == HPF1.Update(cfg, old(H1(chn - 1)))
      ensures H1(2 - chn) == old(H1(2 - chn)) && H2(chn - 1) == old(H2(chn - 1)) && H2(2 - chn) == old(H2(2 - chn))
    {
      HPF1SetPrevious(HPF1PrvInVal[chn - 1], HPF1PrvOtVal[chn - 1], chn);
    }

    // -------------------------------------------------------------------
    // HPF2.c

    /** HPF2Init: one pass per sample when the whole chain runs at the
      * raised rate, UpSmp passes otherwise; the committed previous values
      * are zeroed. */
    method HPF2Init()
      modifies this`cfg, this`HPF2PrvIn, this`HPF2PrvOt
      ensures cfg == old(cfg).(HPF2UpSmp := if AllHig then 1 else UpSmp)
      ensures HPF2PrvIn == [0, 0] && HPF2PrvOt == [0, 0]
    {
      if AllHig {
        cfg := cfg.(HPF2UpSmp := 1);
      } else {
        cfg := cfg.(HPF2UpSmp := UpSmp);
      }
      for chn := 0 to MaxChnl
        modifies this`HPF2PrvIn, this`HPF2PrvOt
        invariant forall j :: 0 <= j < chn ==> HPF2PrvIn[j] == 0 && HPF2PrvOt[j] == 0
      {
        HPF2PrvIn := HPF2PrvIn[chn := 0];
        HPF2PrvOt := HPF2PrvOt[chn := 0];
      }
    }

    /** The first part of HPF2Check: the potentiometer share for types 1
      * and 2 taken off, the upsampling loop on local copies of the
      * committed state, where it ended recorded in the shadow copies, and
      * the average attenuated. */
    method HPF2CheckFilter(x: int, chn: int) returns (outVal: int, potVal: int)
      requires cfg.Valid() && 1 <= chn <= MaxChnl
      modifies this`HPF2PrvInVal, this`HPF2PrvOtVal
      ensures outVal == HPF2.Filtered(cfg, Vals(chn - 1), old(H2(chn - 1)), x)
      ensures potVal == HPF2.PotBefore(cfg, Vals(chn - 1), x)
      ensures var sl := HPF2.Run(cfg, Vals(chn - 1), old(H2(chn - 1)), x);
              && HPF2PrvInVal == old(HPF2PrvInVal)[chn - 1 := sl.PrvIn]
              && HPF2PrvOtVal == old(HPF2PrvOtVal)[chn - 1 := sl.PrvOt]
    {
      var k := chn - 1;
      potVal := if cfg.FltTyp > 2 then 0 else Div(x * HPF2SetValsPot[k], cfg.HPF2SetValsPotMux);
      var smpVal := x - potVal;
      var prvIn := HPF2PrvIn[k];
      var prvOut := HPF2PrvOt[k];
      var outTot := 0;
      var upSmCt := 0;
      while upSmCt < cfg.HPF2UpSmp
        invariant 0 <= upSmCt <= cfg.HPF2UpSmp
        invariant HPF2.Slide(HPF2PrvIn[k], HPF2PrvOt[k], smpVal, HPF2SetValsAlp[k], cfg.HPF2SetValsAlpMux, upSmCt)
                  == HPF2.Slid(prvIn, prvOut, outTot)
      {
        upSmCt := upSmCt + 1;
        outVal := prvOut + smpVal - prvIn;
        outVal := outVal * HPF2SetValsAlp[k];
        outVal := Div(outVal, cfg.HPF2SetValsAlpMux);
        prvIn := smpVal;
        prvOut := outVal;
        outTot := outTot + outVal;
      }
      HPF2PrvInVal := HPF2PrvInVal[k := prvIn];
      HPF2PrvOtVal := HPF2PrvOtVal[k := prvOut];
      outVal := Div(outTot, cfg.HPF2UpSmp);
      outVal := Div(outVal * HPF2SetValsFPt[k], HPF2SetValsFltAttMux);
    }

    /** HPF2Check: the filter's share from a trial run, then the
      * potentiometer share, for types 3 and 4 from what the filter left,
      * through HPF1's check for types 2 and 4; the sum is returned and
      * recorded as the total. */
    method HPF2Check(x: int, chn: int) returns (r: int)
      requires cfg.Valid() && 1 <= chn <= MaxChnl
      modifies this`HPF2PrvInVal, this`HPF2PrvOtVal, this`HPF2PrvOtTot
      modifies this`HPF1PrvInVal, this`HPF1PrvOtVal
      ensures var k := HPF2.Check(cfg, Vals(chn - 1), old(H1(chn - 1)), old(H2(chn - 1)), x);
              r == k.out && H1(chn - 1) == k.h1 && H2(chn - 1) == k.h2
      ensures H1(2 - chn) == old(H1(2 - chn)) && H2(2 - chn) == old(H2(2 - chn))
    {
      var outVal, potVal := HPF2CheckFilter(x, chn);
      r := HPF2CheckPot(x, outVal, potVal, chn);
    }

    /** The second part of HPF2Check: the potentiometer share (for types 3
      * and 4 recomputed from what the filter's share y left of x), through
      * HPF1's check for types 2 and 4, added to y and recorded as the
      * total. */
    method HPF2CheckPot(x: int, y: int, pot: int, chn: int) returns (r: int)
      requires cfg.Valid() && 1 <= chn <= MaxChnl
      modifies this`HPF2PrvOtTot, this`HPF1PrvInVal, this`HPF1PrvOtVal
      ensures var p := if cfg.FltTyp > 2 then Div((x - y) * At(HPF2SetValsPot, chn - 1), cfg.HPF2SetValsPotMux) else pot;
              var hc := if HPF2.PotThroughHPF1(cfg) then HPF1.Check(cfg, old(H1(chn - 1)), p) else HPF1.Stepped(p, old(H1(chn - 1)));
              r == y + hc.out && H1(chn - 1) == hc.f
      ensures HPF2PrvOtTot == old(HPF2PrvOtTot)[chn - 1 := r]
      ensures H1(2 - chn) == old(H1(2 - chn))
    {
      var k := chn - 1;
      var potVal := pot;
      if cfg.FltTyp > 2 {
        potVal := Div((x - y) * HPF2SetValsPot[k], cfg.HPF2SetValsPotMux);
      }
      if cfg.FltTyp == 2 || cfg.FltTyp == 4 {
        potVal := HPF1Check(potVal, chn);
      }
      var outVal := y + potVal;
      HPF2PrvOtTot := HPF2PrvOtTot[k := outVal];
      r := outVal;
    }

    /** HPF2's upsampling loop, run on the committed previous input and
      * output of channel k themselves; the total of the outputs is
      * returned. */
    method HPF2Slide(smpVal: int, k: int) returns (outTot: int)
      requires cfg.Valid() && 0 <= k < MaxChnl
      modifies this`HPF2PrvIn, this`HPF2PrvOt
      ensures var sl := HPF2.Slide(old(HPF2PrvIn[k]), old(HPF2PrvOt[k]), smpVal, HPF2SetValsAlp[k],
                                   cfg.HPF2SetValsAlpMux, cfg.HPF2UpSmp);
              && HPF2PrvIn == old(HPF2PrvIn)[k := sl.PrvIn]
              && HPF2PrvOt == old(HPF2PrvOt)[k := sl.PrvOt]
              && outTot == sl.Tot
    {
      outTot := 0;
      var upSmCt := 0;
      while upSmCt < cfg.HPF2UpSmp
        modifies this`HPF2PrvIn, this`HPF2PrvOt
        invariant 0 <= upSmCt <= cfg.HPF2UpSmp
        invariant var sl := HPF2.Slide(old(HPF2PrvIn[k]), old(HPF2PrvOt[k]), smpVal, HPF2SetValsAlp[k],
                                       cfg.HPF2SetValsAlpMux, upSmCt);
                  && HPF2PrvIn == old(HPF2PrvIn)[k := sl.PrvIn]
                  && HPF2PrvOt == old(HPF2PrvOt)[k := sl.PrvOt]
                  && outTot == sl.Tot
      {
        upSmCt := upSmCt + 1;
        var outVal := HPF2PrvOt[k] + smpVal - HPF2PrvIn[k];
        outVal := outVal * HPF2SetValsAlp[k];
        outVal := Div(outVal, cfg.HPF2SetValsAlpMux);
        HPF2PrvIn := HPF2PrvIn[k := smpVal];
        HPF2PrvOt := HPF2PrvOt[k := outVal];
        outTot := outTot + outVal;
      }
    }

    /** The first part of HPF2: the potentiometer share for types 1 and 2
      * taken off, the upsampling loop on the committed state itself, the
      * average attenuated and fed through the channel's DC filter slot,
      * whose output is subtracted from the stored previous output. */
    method HPF2Filter(x: int, chn: int) returns (outVal: int, potVal: int)
      requires cfg.Valid() && 1 <= chn <= MaxChnl
      modifies this`HPF2PrvIn, this`HPF2PrvOt, this`DCfilterPrvVal, this`DCfilterPrvAccVal
      ensures outVal == HPF2.Filtered(cfg, Vals(chn - 1), old(H2(chn - 1)), x)
      ensures potVal == HPF2.PotBefore(cfg, Vals(chn - 1), x)
      ensures H2(chn - 1) == HPF2.Commit(cfg, Vals(chn - 1), old(H1(chn - 1)), old(H2(chn - 1)), x).h2
      ensures H2(2 - chn) == old(H2(2 - chn)) && H1(chn - 1) == old(H1(chn - 1)) && H1(2 - chn) == old(H1(2 - chn))
    {
      var k := chn - 1;
      potVal := if cfg.FltTyp > 2 then 0 else Div(x * HPF2SetValsPot[k], cfg.HPF2SetValsPotMux);
      var smpVal := x - potVal;
      var outTot := HPF2Slide(smpVal, k);
      var upSmCt := cfg.HPF2UpSmp;
      outVal := Div(outTot, upSmCt);
      outVal := Div(outVal * HPF2SetValsFPt[k], HPF2SetValsFltAttMux);
      HPF2Settle(outVal, HPF2PrvOt[k], chn);
    }

    /** The end of HPF2 and HPF2Update: y through the channel's DC filter
      * slot, whose output is taken off the previous output prvOut to give
      * the stored previous output. */
    method HPF2Settle(y: int, prvOut: int, chn: int)
      requires cfg.Valid() && 1 <= chn <= MaxChnl
      modifies this`HPF2PrvOt, this`DCfilterPrvVal, this`DCfilterPrvAccVal
      ensures var lp := DCfilter.Step(old(H2(chn - 1)).dc, y, cfg.DCfilterAlp, cfg.DCfilterAlpMux);
              H2(chn - 1) == old(H2(chn - 1)).(PrvOt := prvOut - lp.out, dc := lp.slot)
      ensures H2(2 - chn) == old(H2(2 - chn)) && H1(chn - 1) == old(H1(chn - 1)) && H1(2 - chn) == old(H1(2 - chn))
    {
      var lpFilt := DCfilterStep(y, HPF1NumberOfFilters + chn);
      HPF2PrvOt := HPF2PrvOt[chn - 1 := prvOut - lpFilt];
    }

    /** HPF2: the filter's share, then the potentiometer share, for types
      * 3 and 4 from what the filter left, through HPF1 for types 2 and 4;
      * the value returned is their sum. */
    method HPF2Commit(x: int, chn: int) returns (r: int)
      requires cfg.Valid() && 1 <= chn <= MaxChnl
      modifies this`HPF2PrvIn, this`HPF2PrvOt, this`DCfilterPrvVal, this`DCfilterPrvAccVal
      modifies this`HPF1PrvIn, this`HPF1PrvOt
      ensures var m := HPF2.Commit(cfg, Vals(chn - 1), old(H1(chn - 1)), old(H2(chn - 1)), x);
              r == m.out && H1(chn - 1) == m.h1 && H2(chn - 1) == m.h2
      ensures H1(2 - chn) == old(H1(2 - chn)) && H2(2 - chn) == old(H2(2 - chn))
    {
      var k := chn - 1;
      var outVal, potVal := HPF2Filter(x, chn);
      if cfg.FltTyp > 2 {
        potVal := Div((x - outVal) * HPF2SetValsPot[k], cfg.HPF2SetValsPotMux);
      }
      if cfg.FltTyp == 2 || cfg.FltTyp == 4 {
        potVal := HPF1Commit(potVal, chn);
      }
      r := outVal + potVal;
    }

    /** HPF2Update: commit what the last check recorded, feeding the DC
      * filter slot the total the check returned. */
    method HPF2Update(chn: int)
      requires cfg.Valid() && 1 <= chn <= MaxChnl
      modifies this`HPF2PrvIn, this`HPF2PrvOt, this`DCfilterPrvVal, this`DCfilterPrvAccVal
      ensures H2(chn - 1) == HPF2.Update(cfg, old(H2(chn - 1)))
      ensures H2(2 - chn) == old(H2(2 - chn)) && H1(chn - 1) == old(H1(chn - 1)) && H1(2 - chn) == old(H1(2 - chn))
    {
      var prevIn := HPF2PrvInVal[chn - 1];
      var prvOut := HPF2PrvOtVal[chn - 1];
      var prvTot := HPF2PrvOtTot[chn - 1];
      HPF2PrvIn := HPF2PrvIn[chn - 1 := prevIn];
      HPF2Settle(prvTot, prvOut, chn);
    }

    // -------------------------------------------------------------------
    // SetGate.c

    /** SetGateSetPrvRes: the resistance searches start again from the
      * highest resistance. */
    method SetGateSetPrvRes()
      modifies this`SetGatePrvResVal
      ensures SetGatePrvResVal == SetGatePrvResStart
    {
      SetGatePrvResVal := SetGatePrvResStart;
    }

    /** SetGateGetRes27: the search of SetGate.GetRes27 from the last
      * result, which is kept as the start of the next search. */
    method SetGateGetRes27(tooHigh: nat -> bool) returns (res: nat)
      requires 1000 <= SetGatePrvResVal < 0xFFFF_FFFF
      requires forall r: nat :: r <= GCR1 ==> !tooHigh(r)
      modifies this`SetGatePrvResVal
      ensures SetGatePrvResVal == res
      ensures res <= old(SetGatePrvResVal) && !tooHigh(res)
      ensures res == old(SetGatePrvResVal) || tooHigh(res + 1)
      ensures 1000 <= res
    {
      res := SetGate.GetRes27(SetGatePrvResVal, tooHigh);
      SetGatePrvResVal := res;
    }

    /** SetGateTab1Pos: the resistance at stage-1 table position tabPos,
      * searched for from the last one, and the two table entries for it. */
    method SetGateTab1Pos(b: Built, tabPos: int) returns (att: int, alp: int, ghost res: nat)
      requires b.LowResOk()
      requires 1000 <= SetGatePrvResVal < 0xFFFF_FFFF
      modifies this`SetGatePrvResVal
      ensures SetGatePrvResVal == res && 1000 <= res
      ensures Found(b.SetGateTooHigh(tabPos), old(SetGatePrvResVal), res)
      ensures att == b.SetGateAttOf(res) && alp == b.SetGateAlp1Of(res)
    {
      var inpRes := SetGateGetRes27(b.SetGateTooHigh(tabPos));
      att := b.SetGateAttOf(inpRes);
      alp := b.SetGateAlp1Of(inpRes);
      res := inpRes;
    }

    /** The first table loop of SetGateInit: every position from
      * SetGateTab1St to SetGateTab1Ed in turn, each search starting where
      * the one before ended; res holds the resistances found and starts
      * the resistance each search started from. */
    method SetGateMakeTab1(b: Built, att0: seq<int>, alp0: seq<int>)
      returns (att: seq<int>, alp: seq<int>, ghost res: seq<nat>, ghost starts: seq<nat>)
      requires b.LowResOk() && |att0| == SetGateTabLen && |alp0| == SetGateTabLen
      requires 1000 <= SetGatePrvResVal < 0xFFFF_FFFF
      modifies this`SetGatePrvResVal
      ensures |res| == SetGateTabLen && |starts| == SetGateTabLen && |att| == SetGateTabLen && |alp| == SetGateTabLen
      ensures starts[0] == old(SetGatePrvResVal)
      ensures forall i :: 0 <= i < SetGateTabLen ==>
                && att[i] == b.SetGateAttOf(res[i])
                && alp[i] == b.SetGateAlp1Of(res[i])
                && !b.SetGateTooHigh(i + SetGateTab1St)(res[i])
      ensures forall i {:trigger starts[i]} :: 0 <= i < SetGateTabLen ==>
                (0 < i ==> starts[i] == res[i - 1]) && Found(b.SetGateTooHigh(i + SetGateTab1St), starts[i], res[i])
      ensures 1000 <= SetGatePrvResVal < 0xFFFF_FFFF
    {
      att, alp, res, starts := att0, alp0, [], [];
      for tabPos := SetGateTab1St to SetGateTab1Ed + 1
        invariant |res| == tabPos - SetGateTab1St && |starts| == |res|
        invariant |att| == SetGateTabLen && |alp| == SetGateTabLen
        invariant 1000 <= SetGatePrvResVal < 0xFFFF_FFFF
        invariant |res| == 0 ==> SetGatePrvResVal == old(SetGatePrvResVal)
        invariant |res| > 0 ==> SetGatePrvResVal == res[|res| - 1] && starts[0] == old(SetGatePrvResVal)
        invariant forall i :: 0 <= i < |res| ==>
                    && att[i] == b.SetGateAttOf(res[i])
                    && alp[i] == b.SetGateAlp1Of(res[i])
                    && !b.SetGateTooHigh(i + SetGateTab1St)(res[i])
        invariant forall i {:trigger starts[i]} :: 0 <= i < |res| ==>
                    (0 < i ==> starts[i] == res[i - 1]) && Found(b.SetGateTooHigh(i + SetGateTab1St), starts[i], res[i])
      {
        starts := starts + [SetGatePrvResVal];
        var a, l, r := SetGateTab1Pos(b, tabPos);
        att := att[tabPos - SetGateTab1St := a];
        alp := alp[tabPos - SetGateTab1St := l];
        res := res + [r];
      }
    }

    /** The second table loop of SetGateInit: the stage-2 alphas for
      * positions SetGateTab2St to SetGateTab2Ed. */
    method SetGateMakeTab2(b: Built, alp0: seq<int>) returns (alp: seq<int>)
      requires |alp0| == SetGateTabLen
      ensures |alp| == SetGateTabLen
      ensures forall i :: 0 <= i <= SetGateTab2Ed - SetGateTab2St ==> alp[i] == b.SetGateAlp2Of(i + SetGateTab2St)
      ensures alp[SetGateTab2Ed - SetGateTab2St + 1..] == alp0[SetGateTab2Ed - SetGateTab2St + 1..]
    {
      alp := alp0;
      for tabPos := SetGateTab2St to SetGateTab2Ed + 1
        invariant |alp| == SetGateTabLen
        invariant forall i :: 0 <= i < tabPos - SetGateTab2St ==> alp[i] == b.SetGateAlp2Of(i + SetGateTab2St)
        invariant alp[SetGateTab2Ed - SetGateTab2St + 1..] == alp0[SetGateTab2Ed - SetGateTab2St + 1..]
      {
        alp := alp[tabPos - SetGateTab2St := b.SetGateAlp2Of(tabPos)];
      }
    }

    /** SetGateInit: the tables allocated (zeroed) unless they already
      * are; the attenuator's multiplier; alpha table 1's multiplier,
      * capped by the largest the resistance found at the top of table 1
      * allows, and table 2's by its own cap; the tables; both stages'
      * previous outputs zeroed; and the sample range, a quarter of the
      * smallest truncated double quotient of SetGateMax64 by the three
      * multipliers, so that four times a sample times any multiplier stays
      * within SetGateProdMax. The gate outputs are not touched. */
    method SetGateInit(b: Built) returns (ghost top: nat, ghost res: seq<nat>)
      requires b.Valid()
      modifies this`cfg, this`SetGatePrvResVal, this`SetGatePvrSmp1, this`SetGatePvrSmp2
      ensures !b.SetGateTooHigh(SetGateTab1Ed)(top)
      ensures cfg.SetGateAttMux == b.SetGateAttMux
      ensures cfg.SetGateA1Mux == if b.SetGateA1Mux > b.SetGateA1MaxMux(top) then b.SetGateA1MaxMux(top) else b.SetGateA1Mux
      ensures cfg.SetGateA2Mux == if b.SetGateA2Mux > b.SetGateA2MaxMux then b.SetGateA2MaxMux else b.SetGateA2Mux
      ensures |res| == SetGateTabLen
      ensures |cfg.SetGateAttTab| == SetGateTabLen && |cfg.SetGateAlpTab1| == SetGateTabLen
      ensures |cfg.SetGateAlpTab2| == SetGateTabLen
      ensures forall i :: 0 <= i < SetGateTabLen ==>
                && cfg.SetGateAttTab[i] == b.SetGateAttOf(res[i])
                && cfg.SetGateAlpTab1[i] == b.SetGateAlp1Of(res[i])
                && !b.SetGateTooHigh(i + SetGateTab1St)(res[i])
      ensures forall i :: 0 <= i <= SetGateTab2Ed - SetGateTab2St ==> cfg.SetGateAlpTab2[i] == b.SetGateAlp2Of(i + SetGateTab2St)
      ensures SetGatePvrSmp1 == [0, 0] && SetGatePvrSmp2 == [0, 0]
      ensures cfg.SetGateMaxSmp >= 0 && cfg.SetGateMinSmp == -cfg.SetGateMaxSmp
      ensures 4 * cfg.SetGateMaxSmp * cfg.SetGateAttMux <= SetGateProdMax
      ensures 4 * cfg.SetGateMaxSmp * cfg.SetGateA1Mux <= SetGateProdMax
      ensures 4 * cfg.SetGateMaxSmp * cfg.SetGateA2Mux <= SetGateProdMax
      ensures cfg == old(cfg).(SetGateAttMux := cfg.SetGateAttMux, SetGateA1Mux := cfg.SetGateA1Mux,
                               SetGateA2Mux := cfg.SetGateA2Mux, SetGateAttTab := cfg.SetGateAttTab,
                               SetGateAlpTab1 := cfg.SetGateAlpTab1, SetGateAlpTab2 := cfg.SetGateAlpTab2,
                               SetGateMaxSmp := cfg.SetGateMaxSmp, SetGateMinSmp := cfg.SetGateMinSmp)
    {
      var att, alp1, alp2 := cfg.SetGateAttTab, cfg.SetGateAlpTab1, cfg.SetGateAlpTab2;
      if |att| != SetGateTabLen {
        att := seq(SetGateTabLen, _ => 0);
      }
      if |alp1| != SetGateTabLen {
        alp1 := seq(SetGateTabLen, _ => 0);
      }
      if |alp2| != SetGateTabLen {
        alp2 := seq(SetGateTabLen, _ => 0);
      }
      SetGateSetPrvRes();
      var attMux := b.SetGateAttMux;
      SetGateSetPrvRes();
      var a1Mux := b.SetGateA1Mux;
      var r := SetGateGetRes27(b.SetGateTooHigh(SetGateTab1Ed));
      top := r;
      var maxMux := b.SetGateA1MaxMux(r);
      if a1Mux > maxMux {
        a1Mux := maxMux;
      }
      var a2Mux := b.SetGateA2Mux;
      maxMux := b.SetGateA2MaxMux;
      if a2Mux > maxMux {
        a2Mux := maxMux;
      }
      SetGateSetPrvRes();
      ghost var starts;
      att, alp1, res, starts := SetGateMakeTab1(b, att, alp1);
      alp2 := SetGateMakeTab2(b, alp2);
      SetGateZero();
      var maxSmp := SetGateRange(b, attMux, a1Mux, a2Mux);
      cfg := cfg.(SetGateAttMux := attMux, SetGateA1Mux := a1Mux, SetGateA2Mux := a2Mux,
                  SetGateAttTab := att, SetGateAlpTab1 := alp1, SetGateAlpTab2 := alp2,
                  SetGateMaxSmp := maxSmp, SetGateMinSmp := -maxSmp);
    }

    /** The last loop of SetGateInit: both stages' previous outputs of
      * every channel zeroed; the gate outputs are left as they are. */
    method SetGateZero()
      modifies this`SetGatePvrSmp1, this`SetGatePvrSmp2
      ensures SetGatePvrSmp1 == [0, 0] && SetGatePvrSmp2 == [0, 0]
    {
      for fltCnt := 0 to MaxChnl
        invariant forall j :: 0 <= j < fltCnt ==> SetGatePvrSmp1[j] == 0 && SetGatePvrSmp2[j] == 0
      {
        SetGatePvrSmp1 := SetGatePvrSmp1[fltCnt := 0];
        SetGatePvrSmp2 := SetGatePvrSmp2[fltCnt := 0];
      }
    }

    /** The sample range of SetGateInit: a quarter of the smallest of the
      * three truncated double quotients of SetGateMax64 by the
      * multipliers, so that four times a sample times any of them stays
      * within SetGateProdMax, and so within int64. */
    method SetGateRange(b: Built, attMux: int, a1Mux: int, a2Mux: int) returns (maxSmp: int)
      requires b.Valid() && attMux > 0 && a1Mux > 0 && a2Mux > 0
      ensures maxSmp >= 0
      ensures 4 * maxSmp <= b.SetGateQuotOf(attMux) && 4 * maxSmp <= b.SetGateQuotOf(a1Mux)
      ensures 4 * maxSmp <= b.SetGateQuotOf(a2Mux)
      ensures || b.SetGateQuotOf(attMux) < 4 * maxSmp + 4 || b.SetGateQuotOf(a1Mux) < 4 * maxSmp + 4
              || b.SetGateQuotOf(a2Mux) < 4 * maxSmp + 4
      ensures 4 * maxSmp * attMux <= SetGateProdMax
      ensures 4 * maxSmp * a1Mux <= SetGateProdMax
      ensures 4 * maxSmp * a2Mux <= SetGateProdMax
    {
      var m1 := b.SetGateQuotOf(attMux);
      var m2 := b.SetGateQuotOf(a1Mux);
      var m3 := b.SetGateQuotOf(a2Mux);
      maxSmp := m1;
      if maxSmp > m2 {
        maxSmp := m2;
      }
      if maxSmp > m3 {
        maxSmp := m3;
      }
      QuarterFits(maxSmp, m1, attMux);
      QuarterFits(maxSmp, m2, a1Mux);
      QuarterFits(maxSmp, m3, a2Mux);
      DivBounds(maxSmp, 4);
      maxSmp := Div(maxSmp, 4);
    }

    /** Stage 1 of SetGate for channel k: the clamped sample, its table
      * position from the change against the previous stage-1 output, the
      * attenuator, and the move toward it by table 1's alpha. */
    method SetGateStage1(x: int, k: int) returns (smpVal: int)
      requires cfg.Valid() && 0 <= k < MaxChnl
      ensures smpVal == SetGate.Stage1(cfg, Gate(k), x)
    {
      smpVal := x;
      if smpVal > cfg.SetGateMaxSmp {
        smpVal := cfg.SetGateMaxSmp;
      }
      if smpVal < cfg.SetGateMinSmp {
        smpVal := cfg.SetGateMinSmp;
      }
      var tabPos := Div(smpVal - SetGatePvrSmp1[k], SetGateTabPosDiv1);
      if tabPos < SetGateTab1St {
        tabPos := SetGateTab1St;
      }
      if tabPos > SetGateTab1Ed {
        tabPos := SetGateTab1Ed;
      }
      smpVal := Div(smpVal * cfg.SetGateAttTab[tabPos - SetGateTab1St], cfg.SetGateAttMux);
      var difVal := Div((smpVal - SetGatePvrSmp1[k]) * cfg.SetGateAlpTab1[tabPos - SetGateTab1St], cfg.SetGateA1Mux);
      smpVal := SetGatePvrSmp1[k] + difVal;
    }

    /** Stage 2 of SetGate for channel k: the move from the previous
      * stage-2 output toward stage 1's output s1 by table 2's alpha, held
      * up by the diode floor. */
    method SetGateStage2(s1: int, k: int) returns (smpVal: int)
      requires cfg.Valid() && 0 <= k < MaxChnl
      ensures smpVal == SetGate.Stage2(cfg, Gate(k), s1)
    {
      var tabPos := Div(s1 - SetGatePvrSmp2[k], SetGateTabPosDiv2);
      if tabPos < SetGateTab2St {
        tabPos := SetGateTab2St;
      }
      if tabPos > SetGateTab2Ed {
        tabPos := SetGateTab2Ed;
      }
      var prvSmp := s1 - SetGateDioVlt;
      var difVal := Div((s1 - SetGatePvrSmp2[k]) * cfg.SetGateAlpTab2[tabPos - SetGateTab2St], cfg.SetGateA2Mux);
      smpVal := SetGatePvrSmp2[k] + difVal;
      if smpVal < prvSmp {
        smpVal := prvSmp;
      }
    }

    /** SetGate: one sample through both stages of channel tabNum's gate;
      * the other channel's gate is not touched. */
    method SetGateStep(x: int, tabNum: int)
      requires cfg.Valid() && 1 <= tabNum <= MaxChnl
      modifies this`SetGatePvrSmp1, this`SetGatePvrSmp2, this`SetGateOut
      ensures Gate(tabNum - 1) == SetGate.Step(cfg, old(Gate(tabNum - 1)), x)
      ensures Gate(2 - tabNum) == old(Gate(2 - tabNum))
    {
      var k := tabNum - 1;
      var s1 := SetGateStage1(x, k);
      var s2 := SetGateStage2(s1, k);
      SetGatePvrSmp1 := SetGatePvrSmp1[k := s1];
      SetGatePvrSmp2 := SetGatePvrSmp2[k := s2];
      SetGateOut := SetGateOut[k := s2];
    }

    // -------------------------------------------------------------------
    // HPF2SetVals.c

    /** HPF2SetValsTableRes: the control range is VltMux * -VgsOff
      * nanovolts and the resolution the first estimate MaxVlt / TableSize;
      * for this range the top of the range already sits at position
      * TableSize, so both adjustment loops, whose guards are the two
      * sides of that equality, exit at once and are not written out. */
    method HPF2SetValsTableRes()
      modifies this`cfg
      ensures cfg == old(cfg).(HPF2SetValsMaxVlt := cfg.HPF2SetValsMaxVlt, HPF2SetValsTabRes := cfg.HPF2SetValsTabRes)
      ensures cfg.HPF2SetValsMaxVlt == -VgsOffNano && cfg.HPF2SetValsTabRes > 0
      ensures Div(cfg.HPF2SetValsMaxVlt, cfg.HPF2SetValsTabRes) == HPF2SetValsTableSize
      ensures HPF2SetVals.TabPos(cfg.HPF2SetValsMaxVlt, cfg.HPF2SetValsTabRes) == HPF2SetValsTableSize
    {
      var maxVlt := -VgsOffNano;
      var tabRes := Div(maxVlt, HPF2SetValsTableSize);
      HPF2SetVals.LibraryTableRes();
      assert HPF2SetVals.TabPos(maxVlt, tabRes) == HPF2SetValsTableSize;
      cfg := cfg.(HPF2SetValsMaxVlt := maxVlt, HPF2SetValsTabRes := tabRes);
    }

    /** HPF2SetValsInit: the resolution, then the input-attenuation table
      * and its multiplier, and the alpha table, its multiplier and the
      * output-attenuation table. The floating-point FET model gives the
      * raw values in b; the alpha table is the running maximum of b's
      * alphas, so it never falls. */
    method HPF2SetValsInit(b: Built)
      requires b.Valid()
      modifies this`cfg
      ensures cfg == old(cfg).(HPF2SetValsMaxVlt := cfg.HPF2SetValsMaxVlt, HPF2SetValsTabRes := cfg.HPF2SetValsTabRes,
                               HPF2SetValsPotMux := b.HPF2SetValsPotMux, HPF2SetValsPotTab := b.HPF2SetValsPotTab,
                               HPF2SetValsAlpMux := b.HPF2SetValsAlpMux, HPF2SetValsAlpTab := cfg.HPF2SetValsAlpTab,
                               HPF2SetValsFLTATb := b.HPF2SetValsFLTATb)
      ensures cfg.HPF2SetValsMaxVlt == -VgsOffNano && cfg.HPF2SetValsTabRes > 0
      ensures Div(cfg.HPF2SetValsMaxVlt, cfg.HPF2SetValsTabRes) == HPF2SetValsTableSize
      ensures |cfg.HPF2SetValsAlpTab| == HPF2SetValsTableSize + 1 && HPF2SetVals.Sorted(cfg.HPF2SetValsAlpTab)
      ensures forall i :: 0 <= i < |cfg.HPF2SetValsAlpTab| ==>
                cfg.HPF2SetValsAlpTab[i] == HPF2SetVals.RunMax(b.HPF2SetValsAlpVals, i + 1)
    {
      HPF2SetValsTableRes();
      cfg := cfg.(HPF2SetValsPotMux := b.HPF2SetValsPotMux, HPF2SetValsPotTab := b.HPF2SetValsPotTab);
      var alpTab := HPF2SetVals.MakeAlpTable(b.HPF2SetValsAlpVals);
      cfg := cfg.(HPF2SetValsAlpMux := b.HPF2SetValsAlpMux, HPF2SetValsAlpTab := alpTab,
                  HPF2SetValsFLTATb := b.HPF2SetValsFLTATb);
    }

    /** HPF2SetVals: channel fltNum's three filter values interpolated
      * from the tables at the voltage its gate output leaves across the
      * FET; the other channel's values are not touched. */
    method HPF2SetValsSet(fltNum: int)
      requires cfg.Valid() && 1 <= fltNum <= MaxChnl
      modifies this`HPF2SetValsPot, this`HPF2SetValsAlp, this`HPF2SetValsFPt
      ensures Vals(fltNum - 1) == HPF2SetVals.SetVals(cfg, At(SetGateOut, fltNum - 1))
      ensures Vals(2 - fltNum) == old(Vals(2 - fltNum))
    {
      var k := fltNum - 1;
      var sVlt := cfg.FETSVt;
      var vltDif := sVlt - cfg.FETGVt - SetGateOut[k];
      if vltDif < 0 {
        vltDif := 0;
      }
      if vltDif > cfg.HPF2SetValsMaxVlt {
        vltDif := cfg.HPF2SetValsMaxVlt;
      }
      var tabPos := HPF2SetVals.TabPos(vltDif, cfg.HPF2SetValsTabRes);
      assert tabPos == HPF2SetVals.Pos(cfg, vltDif);
      var nxTbPs;
      if tabPos < HPF2SetValsTableSize {
        nxTbPs := tabPos + 1;
      } else {
        nxTbPs := HPF2SetValsTableSize;
      }
      var tabVlt := tabPos * cfg.HPF2SetValsTabRes;
      var tbVtDf := vltDif - tabVlt;
      var potVal := cfg.HPF2SetValsPotTab[tabPos];
      var potDif := cfg.HPF2SetValsPotTab[nxTbPs] - potVal;
      var alpVal := cfg.HPF2SetValsAlpTab[tabPos];
      var alpDif := cfg.HPF2SetValsAlpTab[nxTbPs] - alpVal;
      var fAtVal := cfg.HPF2SetValsFLTATb[tabPos];
      var fAtDif := cfg.HPF2SetValsFLTATb[nxTbPs] - fAtVal;
      potVal := potVal + Div(tbVtDf * potDif, cfg.HPF2SetValsTabRes);
      alpVal := alpVal + Div(tbVtDf * alpDif, cfg.HPF2SetValsTabRes);
      fAtVal := fAtVal + Div(tbVtDf * fAtDif, cfg.HPF2SetValsTabRes);
      HPF2SetValsPot := HPF2SetValsPot[k := potVal];
      HPF2SetValsAlp := HPF2SetValsAlp[k := alpVal];
      HPF2SetValsFPt := HPF2SetValsFPt[k := fAtVal];
    }

    // -------------------------------------------------------------------
    // SidePath.c

    /** Every channel's gate at rest on a zero sample and its sliding
      * filter set, under configuration c, for a zero gate output. */
    ghost predicate PrimedFor(c: Config)
      reads this`SetGatePvrSmp1, this`SetGatePvrSmp2, this`SetGateOut
      reads this`HPF2SetValsPot, this`HPF2SetValsAlp, this`HPF2SetValsFPt
    {
      c.Valid() && forall k :: 0 <= k < MaxChnl ==> Gate(k) == SetGate.Zero && Vals(k) == HPF2SetVals.SetVals(c, 0)
    }

    /** Primed for the session's own configuration. */
    ghost predicate Primed()
      reads this`cfg, this`SetGatePvrSmp1, this`SetGatePvrSmp2, this`SetGateOut
      reads this`HPF2SetValsPot, this`HPF2SetValsAlp, this`HPF2SetValsFPt
    {
      PrimedFor(cfg)
    }

    /** Primed spelled out, for proofs that hide definitions. */
    lemma PrimedIs()
      ensures Primed() <==> PrimedFor(cfg)
    {
    }

    /** The DC filter's four slots and both channels of HPF1 and HPF2
      * hold zero, as their initialisations leave them. */
    ghost predicate Cleared()
      reads this`DCfilterPrvVal, this`DCfilterPrvAccVal, this`HPF1PrvIn, this`HPF1PrvOt, this`HPF2PrvIn, this`HPF2PrvOt
    {
      && DCfilterPrvVal == [0, 0, 0, 0] && DCfilterPrvAccVal == [0, 0, 0, 0]
      && HPF1PrvIn == [0, 0] && HPF1PrvOt == [0, 0] && HPF2PrvIn == [0, 0] && HPF2PrvOt == [0, 0]
    }

    /** SidePathInit: the components initialised and the gains set, then
      * each channel's gate run once on a zero sample and its sliding-filter
      * values looked up for the gate output. With both stages starting at
      * zero, every channel leaves with the gate at rest and the sliding
      * filter set for a zero gate output. */
    method SidePathInit(b: Built)
      requires b.Valid() && 1 <= cfg.FltTyp <= 4 && (AllHig || UpSmp >= 1)
      modifies this`cfg, this`DCfilterPrvVal, this`DCfilterPrvAccVal, this`HPF1PrvIn, this`HPF1PrvOt
      modifies this`HPF2PrvIn, this`HPF2PrvOt, this`SetGatePrvResVal, this`SetGatePvrSmp1, this`SetGatePvrSmp2
      modifies this`SetGateOut, this`HPF2SetValsPot, this`HPF2SetValsAlp, this`HPF2SetValsFPt
      ensures cfg.Valid()
      ensures cfg.FltTyp == old(cfg.FltTyp) && cfg.FETClp == old(cfg.FETClp)
      ensures cfg.FETGVt == old(cfg.FETGVt) && cfg.FETSVt == old(cfg.FETSVt)
      ensures cfg.DCfilterAlpMux == b.DCfilterAlpMux && cfg.DCfilterAlp == b.DCfilterAlp
      ensures cfg.HPF1AlpMux == b.HPF1AlpMux && cfg.HPF1Alp == b.HPF1Alp
      ensures cfg.HPF2UpSmp == if AllHig then 1 else UpSmp
      ensures cfg.DiodeClipMaxVal == b.DiodeClipMaxVal
      ensures cfg.SidePathGainMux == b.SidePathGainMux && cfg.SidePathGainVal == b.SidePathGainVal
      ensures cfg.SidePathGcMux == b.SidePathGcMux && cfg.SidePathGcVal == b.SidePathGcVal
      ensures DCfilterPrvVal == [0, 0, 0, 0] && DCfilterPrvAccVal == [0, 0, 0, 0]
      ensures HPF1PrvIn == [0, 0] && HPF1PrvOt == [0, 0] && HPF2PrvIn == [0, 0] && HPF2PrvOt == [0, 0]
      ensures Cleared() && Primed()
    {
      SidePathInitComponents(b);
      SidePathPrime();
    }

    /** The loop closing SidePathInit: channel by channel, the gate on a
      * zero sample, then the sliding-filter values. */
    method SidePathPrime()
      requires cfg.Valid() && SetGatePvrSmp1 == [0, 0] && SetGatePvrSmp2 == [0, 0]
      modifies this`SetGatePvrSmp1, this`SetGatePvrSmp2, this`SetGateOut
      modifies this`HPF2SetValsPot, this`HPF2SetValsAlp, this`HPF2SetValsFPt
      ensures Primed()
    {
      for tabCnt := 1 to MaxChnl + 1
        invariant forall k :: 0 <= k < tabCnt - 1 ==> Gate(k) == SetGate.Zero && Vals(k) == HPF2SetVals.SetVals(cfg, 0)
        invariant forall k :: tabCnt - 1 <= k < MaxChnl ==> SetGatePvrSmp1[k] == 0 && SetGatePvrSmp2[k] == 0
      {
        SetGate.ZeroAtRest(cfg, Gate(tabCnt - 1));
        SetGateStep(0, tabCnt);
        HPF2SetValsSet(tabCnt);
      }
    }

    /** The component initialisations of SidePathInit and the two gains.
      * The filter type, the FET flag and voltages are the caller's; every
      * other field of cfg is set here, so afterwards cfg is valid. The
      * gate's and the sliding filter's initialisations fail only when a
      * table cannot be allocated, which is not modelled. */
    method SidePathInitComponents(b: Built)
      requires b.Valid() && 1 <= cfg.FltTyp <= 4 && (AllHig || UpSmp >= 1)
      modifies this`cfg, this`DCfilterPrvVal, this`DCfilterPrvAccVal, this`HPF1PrvIn, this`HPF1PrvOt
      modifies this`HPF2PrvIn, this`HPF2PrvOt, this`SetGatePrvResVal, this`SetGatePvrSmp1, this`SetGatePvrSmp2
      ensures cfg.Valid()
      ensures cfg.FltTyp == old(cfg.FltTyp) && cfg.FETClp == old(cfg.FETClp)
      ensures cfg.FETGVt == old(cfg.FETGVt) && cfg.FETSVt == old(cfg.FETSVt)
      ensures cfg.DCfilterAlpMux == b.DCfilterAlpMux && cfg.DCfilterAlp == b.DCfilterAlp
      ensures cfg.HPF1AlpMux == b.HPF1AlpMux && cfg.HPF1Alp == b.HPF1Alp
      ensures cfg.HPF2UpSmp == if AllHig then 1 else UpSmp
      ensures cfg.DiodeClipMaxVal == b.DiodeClipMaxVal
      ensures cfg.SidePathGainMux == b.SidePathGainMux && cfg.SidePathGainVal == b.SidePathGainVal
      ensures cfg.SidePathGcMux == b.SidePathGcMux && cfg.SidePathGcVal == b.SidePathGcVal
      ensures cfg.HPF2SetValsPotTab == b.HPF2SetValsPotTab && cfg.HPF2SetValsFLTATb == b.HPF2SetValsFLTATb
      ensures HPF2SetVals.Sorted(cfg.HPF2SetValsAlpTab)
      ensures DCfilterPrvVal == [0, 0, 0, 0] && DCfilterPrvAccVal == [0, 0, 0, 0]
      ensures HPF1PrvIn == [0, 0] && HPF1PrvOt == [0, 0] && HPF2PrvIn == [0, 0] && HPF2PrvOt == [0, 0]
      ensures SetGatePvrSmp1 == [0, 0] && SetGatePvrSmp2 == [0, 0]
    {
      DCfilterInit(b.DCfilterAlpMux, b.DCfilterAlp);
      HPF1Init(b.HPF1AlpMux, b.HPF1Alp);
      HPF2Init();
      var top, res := SetGateInit(b);
      HPF2SetValsInit(b);
      DiodeClipInit(b.DiodeClipMaxVal);
      cfg := cfg.(SidePathGainMux := b.SidePathGainMux, SidePathGainVal := b.SidePathGainVal,
                  SidePathGcMux := b.SidePathGcMux, SidePathGcVal := b.SidePathGcVal);
    }

    /** The first half of SidePathCheck: the gain and both filters as
      * checks. */
    method SidePathCheckFilters(x: int, chn: int) returns (y: int)
      requires cfg.Valid() && 1 <= chn <= MaxChnl
      modifies this`HPF2PrvInVal, this`HPF2PrvOtVal, this`HPF2PrvOtTot
      modifies this`HPF1PrvInVal, this`HPF1PrvOtVal
      ensures var k1 := SidePath.FirstCheck(cfg, old(Chan(chn - 1)), x);
              var k2 := HPF2.Check(cfg, Vals(chn - 1), k1.f, old(H2(chn - 1)), k1.out);
              y == k2.out && H1(chn - 1) == k2.h1 && H2(chn - 1) == k2.h2
      ensures H1(2 - chn) == old(H1(2 - chn)) && H2(2 - chn) == old(H2(2 - chn))
    {
      var smpVal := Div(x * cfg.SidePathGainVal, cfg.SidePathGainMux);
      if cfg.FltTyp == 1 || cfg.FltTyp == 3 {
        smpVal := HPF1Check(smpVal, chn);
      }
      y := HPF2Check(smpVal, chn);
    }

    /** SidePathCheck: channel chn's sample through the side path with
      * both filters as checks; only the shadow copies and the diode flag
      * change. */
    method SidePathCheck(x: int, chn: int) returns (r: int)
      requires cfg.Valid() && 1 <= chn <= MaxChnl
      modifies this`HPF2PrvInVal, this`HPF2PrvOtVal, this`HPF2PrvOtTot
      modifies this`HPF1PrvInVal, this`HPF1PrvOtVal, this`DiodeClipCliped
      ensures var k := SidePath.Check(cfg, old(Chan(chn - 1)), x);
              r == k.out && DiodeClipCliped == k.cliped
              && H1(chn - 1) == k.ch.h1 && H2(chn - 1) == k.ch.h2 && Gate(chn - 1) == k.ch.gate && Vals(chn - 1) == k.ch.vals
      ensures H1(2 - chn) == old(H1(2 - chn)) && H2(2 - chn) == old(H2(2 - chn))
      ensures Gate(2 - chn) == old(Gate(2 - chn)) && Vals(2 - chn) == old(Vals(2 - chn))
    {
      var smpVal := SidePathCheckFilters(x, chn);
      r := DiodeClipStep(smpVal);
    }

    /** The gain control shared by SidePath and SidePathUpdate: the gate
      * output forced to zero with FETClp set, otherwise the scaled sample
      * through SetGate; then the sliding filter's values for the new gate
      * output. */
    method SidePathControl(y: int, chn: int)
      requires cfg.Valid() && 1 <= chn <= MaxChnl
      modifies this`SetGatePvrSmp1, this`SetGatePvrSmp2, this`SetGateOut
      modifies this`HPF2SetValsPot, this`HPF2SetValsAlp, this`HPF2SetValsFPt
      ensures Gate(chn - 1) == SidePath.ControlGate(cfg, old(Gate(chn - 1)), y)
      ensures Vals(chn - 1) == HPF2SetVals.SetVals(cfg, Gate(chn - 1).Out)
      ensures Gate(2 - chn) == old(Gate(2 - chn)) && Vals(2 - chn) == old(Vals(2 - chn))
    {
      if cfg.FETClp {
        SetGateOut := SetGateOut[chn - 1 := 0];
      } else {
        SetGateStep(Div(y * cfg.SidePathGcVal, cfg.SidePathGcMux), chn);
      }
      HPF2SetValsSet(chn);
    }

    /** The first half of SidePath: the gain and both filters committed. */
    method SidePathFilters(x: int, chn: int) returns (y: int)
      requires cfg.Valid() && 1 <= chn <= MaxChnl
      modifies this`HPF2PrvIn, this`HPF2PrvOt, this`DCfilterPrvVal, this`DCfilterPrvAccVal
      modifies this`HPF1PrvIn, this`HPF1PrvOt
      ensures var m := SidePath.Filters(cfg, old(H1(chn - 1)), old(H2(chn - 1)), old(Vals(chn - 1)), x);
              y == m.out && H1(chn - 1) == m.h1 && H2(chn - 1) == m.h2
      ensures H1(2 - chn) == old(H1(2 - chn)) && H2(2 - chn) == old(H2(2 - chn))
    {
      hide HPF1.Commit, HPF2.Commit, HPF1.Filter, HPF1.SetPrevious, HPF2.Slide, HPF2.Run, HPF2.PotBefore, HPF2.PotAfter, DCfilter.Step, Gate, Vals, Chan;
      var smpVal := Div(x * cfg.SidePathGainVal, cfg.SidePathGainMux);
      if cfg.FltTyp == 1 || cfg.FltTyp == 3 {
        smpVal := HPF1Commit(smpVal, chn);
      }
      y := HPF2Commit(smpVal, chn);
    }

    /** The second half of SidePath and SidePathUpdate: the gain control
      * on the filter output y, then y through the diodes. */
    method SidePathFinish(y: int, chn: int) returns (r: int)
      requires cfg.Valid() && 1 <= chn <= MaxChnl
      modifies this`SetGatePvrSmp1, this`SetGatePvrSmp2, this`SetGateOut
      modifies this`HPF2SetValsPot, this`HPF2SetValsAlp, this`HPF2SetValsFPt, this`DiodeClipCliped
      ensures Gate(chn - 1) == SidePath.ControlGate(cfg, old(Gate(chn - 1)), y)
      ensures Vals(chn - 1) == HPF2SetVals.SetVals(cfg, Gate(chn - 1).Out)
      ensures DiodeClip.Clipped(r, DiodeClipCliped) == SidePath.Clip(cfg, y)
      ensures Gate(2 - chn) == old(Gate(2 - chn)) && Vals(2 - chn) == old(Vals(2 - chn))
    {
      SidePathControl(y, chn);
      r := DiodeClipStep(y);
    }

    /** SidePath: channel chn's sample through the side path with both
      * filters committed, then the gain control on the filter output; the
      * result goes through the diodes. The other channel is not touched. */
    method SidePathStep(x: int, chn: int) returns (r: int)
      requires cfg.Valid() && 1 <= chn <= MaxChnl
      modifies this`HPF2PrvIn, this`HPF2PrvOt, this`DCfilterPrvVal, this`DCfilterPrvAccVal
      modifies this`HPF1PrvIn, this`HPF1PrvOt
      modifies this`SetGatePvrSmp1, this`SetGatePvrSmp2, this`SetGateOut
      modifies this`HPF2SetValsPot, this`HPF2SetValsAlp, this`HPF2SetValsFPt, this`DiodeClipCliped
      ensures var m := SidePath.Commit(cfg, SidePath.Channel(old(H1(chn - 1)), old(H2(chn - 1)), old(Gate(chn - 1)), old(Vals(chn - 1))), x);
              r == m.out && DiodeClipCliped == m.cliped
              && H1(chn - 1) == m.ch.h1 && H2(chn - 1) == m.ch.h2 && Gate(chn - 1) == m.ch.gate && Vals(chn - 1) == m.ch.vals
      ensures H1(2 - chn) == old(H1(2 - chn)) && H2(2 - chn) == old(H2(2 - chn))
      ensures Gate(2 - chn) == old(Gate(2 - chn)) && Vals(2 - chn) == old(Vals(2 - chn))
    {
      hide *;
      var smpVal := SidePathFilters(x, chn);
      r := SidePathFinish(smpVal, chn);
    }

    /** SidePathUpdate: both filters committed from what the last check
      * recorded, the gain control on the total that check returned, and
      * that total through the diodes. */
    method SidePathUpdate(chn: int) returns (r: int)
      requires cfg.Valid() && 1 <= chn <= MaxChnl
      modifies this`HPF2PrvIn, this`HPF2PrvOt, this`DCfilterPrvVal, this`DCfilterPrvAccVal
      modifies this`HPF1PrvIn, this`HPF1PrvOt
      modifies this`SetGatePvrSmp1, this`SetGatePvrSmp2, this`SetGateOut
      modifies this`HPF2SetValsPot, this`HPF2SetValsAlp, this`HPF2SetValsFPt, this`DiodeClipCliped
      ensures var u := SidePath.Update(cfg, SidePath.Channel(old(H1(chn - 1)), old(H2(chn - 1)), old(Gate(chn - 1)), old(Vals(chn - 1))));
              r == u.out && DiodeClipCliped == u.cliped
              && H1(chn - 1) == u.ch.h1 && H2(chn - 1) == u.ch.h2 && Gate(chn - 1) == u.ch.gate && Vals(chn - 1) == u.ch.vals
      ensures H1(2 - chn) == old(H1(2 - chn)) && H2(2 - chn) == old(H2(2 - chn))
      ensures Gate(2 - chn) == old(Gate(2 - chn)) && Vals(2 - chn) == old(Vals(2 - chn))
    {
      hide Config.Valid, CInt.Div, HPF2SetVals.SetVals, SetGate.Step, HPF1.Update, HPF2.Update, SidePath.Update, SidePath.Control, SidePath.ControlGate, SidePath.Clip, H1, Gate, Vals, Chan;
      SidePathUpdateFilters(chn);
      r := SidePathFinish(HPF2PrvOtTot[chn - 1], chn);
    }

    /** The first half of SidePathUpdate: both filters committed from the
      * last check. */
    method SidePathUpdateFilters(chn: int)
      requires cfg.Valid() && 1 <= chn <= MaxChnl
      modifies this`HPF2PrvIn, this`HPF2PrvOt, this`DCfilterPrvVal, this`DCfilterPrvAccVal
      modifies this`HPF1PrvIn, this`HPF1PrvOt
      ensures H1(chn - 1) == HPF1.Update(cfg, old(H1(chn - 1))) && H2(chn - 1) == HPF2.Update(cfg, old(H2(chn - 1)))
      ensures H1(2 - chn) == old(H1(2 - chn)) && H2(2 - chn) == old(H2(2 - chn))
    {
      HPF1Update(chn);
      HPF2Update(chn);
    }

    // -------------------------------------------------------------------
    // FindOutSmp.c

    /** FindOutSmpInit: the search tolerance, computed in floating point
      * from DecAMX and SmpMux and passed in as maxDif, is raised to at
      * least 10; both channels' previous input and output are zeroed. */
    method FindOutSmpInit(maxDif: int)
      modifies this`FindOutSmpMaxDif, this`FindOutSmpPrvIn, this`FindOutSmpPrvOt
      ensures FindOutSmpMaxDif == FindOutSmp.MaxDif(maxDif)
      ensures FindOutSmpPrvIn == [0, 0] && FindOutSmpPrvOt == [0, 0]
    {
      FindOutSmpMaxDif := maxDif;
      if FindOutSmpMaxDif < 10 {
        FindOutSmpMaxDif := 10;
      }
      FindOutSmpPrvIn, FindOutSmpPrvOt := [0, 0], [0, 0];
    }

    /** FindOutSmpTestGuess: guess n through the side path as a check,
      * decoded from input x. The channel's committed state is ch0's, so
      * the trial is the one ch0 gives whatever earlier trials left in
      * the shadow copies, and the filters' states become that check's. */
    method FindOutSmpTestGuess(x: int, n: int, chn: int, ghost ch0: SidePath.Channel) returns (r: int)
      requires cfg.Valid() && 1 <= chn <= MaxChnl
      requires SidePath.SameCommitted(SidePath.Channel(H1(chn - 1), H2(chn - 1), Gate(chn - 1), Vals(chn - 1)), ch0)
      modifies this`HPF2PrvInVal, this`HPF2PrvOtVal, this`HPF2PrvOtTot
      modifies this`HPF1PrvInVal, this`HPF1PrvOtVal, this`DiodeClipCliped
      ensures SidePath.SameCommitted(SidePath.Channel(H1(chn - 1), H2(chn - 1), Gate(chn - 1), Vals(chn - 1)), ch0)
      ensures var t := FindOutSmp.Test(cfg, ch0, x, n);
              r == t.out && DiodeClipCliped == t.cliped
      ensures var k := SidePath.Check(cfg, ch0, n);
              H1(chn - 1) == k.ch.h1 && H2(chn - 1) == k.ch.h2
      ensures H1(2 - chn) == old(H1(2 - chn)) && H2(2 - chn) == old(H2(2 - chn))
    {
      SidePath.CheckIgnoresShadow(cfg, Chan(chn - 1), ch0, n);
      var s := SidePathCheck(n, chn);
      r := Mixers.Decode(x, s);
    }

    /** The first trials of FindOutSmp: the first guess is the previous
      * output plus the change in the input; when its trial does not clip,
      * the trial's output is tried in turn. */
    method FindOutSmpTrials(x: int, chn: int, ghost ch0: SidePath.Channel) returns (nxtGus: int, nxtOut: int)
      requires cfg.Valid() && 1 <= chn <= MaxChnl
      requires SidePath.SameCommitted(SidePath.Channel(H1(chn - 1), H2(chn - 1), Gate(chn - 1), Vals(chn - 1)), ch0)
      modifies this`HPF2PrvInVal, this`HPF2PrvOtVal, this`HPF2PrvOtTot
      modifies this`HPF1PrvInVal, this`HPF1PrvOtVal, this`DiodeClipCliped
      ensures (nxtGus, FindOutSmp.Trial(nxtOut, DiodeClipCliped))
              == FindOutSmp.FirstTrial(cfg, ch0, x, FindOutSmpPrvIn[chn - 1], FindOutSmpPrvOt[chn - 1])
      ensures SidePath.SameCommitted(SidePath.Channel(H1(chn - 1), H2(chn - 1), Gate(chn - 1), Vals(chn - 1)), ch0)
      ensures var k := SidePath.Check(cfg, ch0, nxtGus);
              DiodeClipCliped == k.cliped && H1(chn - 1) == k.ch.h1 && H2(chn - 1) == k.ch.h2
      ensures H1(2 - chn) == old(H1(2 - chn)) && H2(2 - chn) == old(H2(2 - chn))
    {
      hide SidePath.Check, SidePath.SameCommitted, SidePath.FirstCheck, HPF1.Check, HPF2.Check, Config.Valid,
           Chan, H1, H2, Gate, Vals;
      nxtGus := FindOutSmpPrvOt[chn - 1] + x - FindOutSmpPrvIn[chn - 1];
      nxtOut := FindOutSmpTestGuess(x, nxtGus, chn, ch0);
      if !DiodeClipCliped {
        nxtGus := nxtOut;
        nxtOut := FindOutSmpTestGuess(x, nxtGus, chn, ch0);
      }
    }

    /** The start of FindOutSmp: the loop's variables from the last of the
      * first trials. */
    method FindOutSmpFirst(x: int, chn: int, ghost ch0: SidePath.Channel) returns (s: FindOutSmp.Loop)
      requires cfg.Valid() && 1 <= chn <= MaxChnl
      requires ch0 == Chan(chn - 1)
      modifies this`HPF2PrvInVal, this`HPF2PrvOtVal, this`HPF2PrvOtTot
      modifies this`HPF1PrvInVal, this`HPF1PrvOtVal, this`DiodeClipCliped
      ensures s == FindOutSmp.Start(cfg, ch0, x, FindOutSmpPrvIn[chn - 1], FindOutSmpPrvOt[chn - 1], FindOutSmpMaxDif)
      ensures SidePath.SameCommitted(SidePath.Channel(H1(chn - 1), H2(chn - 1), Gate(chn - 1), Vals(chn - 1)), ch0)
      ensures var k := SidePath.Check(cfg, ch0, s.NxtGus);
              DiodeClipCliped == k.cliped && H1(chn - 1) == k.ch.h1 && H2(chn - 1) == k.ch.h2
      ensures H1(2 - chn) == old(H1(2 - chn)) && H2(2 - chn) == old(H2(2 - chn))
    {
      assert SidePath.SameCommitted(SidePath.Channel(H1(chn - 1), H2(chn - 1), Gate(chn - 1), Vals(chn - 1)), ch0);
      hide SidePath.Check, SidePath.SameCommitted, SidePath.FirstCheck, HPF1.Check, HPF2.Check, Config.Valid,
           FindOutSmp.Test, FindOutSmp.FirstTrial, FindOutSmp.UpdateHigLow, FindOutSmp.Int32, Chan, H1, H2, Gate, Vals;
      var nxtGus, nxtOut := FindOutSmpTrials(x, chn, ch0);
      var gusSta, gusVal, outVal := 0, 0, 0;
      if !DiodeClipCliped {
        gusSta, gusVal, outVal := 1, FindOutSmp.Int32(nxtGus), FindOutSmp.Int32(nxtOut);
      }
      var hig, low := FindOutSmp.MoveHigLow(nxtGus, nxtOut, FindOutSmp.HigVal, -FindOutSmp.HigVal);
      s := FindOutSmp.Loop(FindOutSmp.Bracket(hig, low), nxtGus, nxtOut, FindOutSmpMaxDif + 1,
                           0, gusSta, gusVal, 0, outVal, 0);
    }

    /** The loop of FindOutSmp: guesses are tried until the bracket is no
      * wider than FindOutSmpMaxDif; it ends where the search from s ends,
      * with the filters as the check of the last guess left them. */
    method FindOutSmpLoop(x: int, chn: int, s0: FindOutSmp.Loop, ghost ch0: SidePath.Channel) returns (s: FindOutSmp.Loop)
      requires cfg.Valid() && 1 <= chn <= MaxChnl && FindOutSmpMaxDif >= FindOutSmp.MinMaxDif
      requires s0.GusCnt <= 2 && s0.GusSta <= 2
      requires SidePath.SameCommitted(SidePath.Channel(H1(chn - 1), H2(chn - 1), Gate(chn - 1), Vals(chn - 1)), ch0)
      requires var k := SidePath.Check(cfg, ch0, s0.NxtGus);
               DiodeClipCliped == k.cliped && H1(chn - 1) == k.ch.h1 && H2(chn - 1) == k.ch.h2
      modifies this`HPF2PrvInVal, this`HPF2PrvOtVal, this`HPF2PrvOtTot
      modifies this`HPF1PrvInVal, this`HPF1PrvOtVal, this`DiodeClipCliped
      ensures s == FindOutSmp.Search(cfg, ch0, x, s0, FindOutSmpMaxDif)
      ensures var k := SidePath.Check(cfg, ch0, s.NxtGus);
              DiodeClipCliped == k.cliped && H1(chn - 1) == k.ch.h1 && H2(chn - 1) == k.ch.h2
      ensures H1(2 - chn) == old(H1(2 - chn)) && H2(2 - chn) == old(H2(2 - chn))
    {
      hide *;
      var maxDif := FindOutSmpMaxDif;
      s := s0;
      while s.NxtDif > maxDif
        invariant s.GusCnt <= 2 && s.GusSta <= 2
        invariant FindOutSmp.Search(cfg, ch0, x, s, maxDif) == FindOutSmp.Search(cfg, ch0, x, s0, maxDif)
        invariant SidePath.SameCommitted(SidePath.Channel(H1(chn - 1), H2(chn - 1), Gate(chn - 1), Vals(chn - 1)), ch0)
        invariant var k := SidePath.Check(cfg, ch0, s.NxtGus);
                  DiodeClipCliped == k.cliped && H1(chn - 1) == k.ch.h1 && H2(chn - 1) == k.ch.h2
        invariant H1(2 - chn) == old(H1(2 - chn)) && H2(2 - chn) == old(H2(2 - chn))
        decreases FindOutSmp.Measure(s, maxDif)
      {
        FindOutSmp.SearchStep(cfg, ch0, x, s, maxDif);
        var g := FindOutSmp.ChooseGuess(s);
        var nxtOut := FindOutSmpTestGuess(x, g.n, chn, ch0);
        s := FindOutSmp.Tried(s, g, FindOutSmp.Trial(nxtOut, DiodeClipCliped));
      }
      FindOutSmp.SearchStops(cfg, ch0, x, s, maxDif);
    }

    /** FindOutSmp: the decoder's output sample for input x on channel chn.
      * It is the search's result on the channel's committed state, from
      * the previous input and output; the filters are left as the check of
      * the search's last guess left them, and the previous input and
      * output become x and the result. The loop's variables are kept
      * together in one record. */
    method FindOutSmpRun(x: int, chn: int) returns (r: int)
      requires cfg.Valid() && 1 <= chn <= MaxChnl && FindOutSmpMaxDif >= FindOutSmp.MinMaxDif
      modifies this`HPF2PrvInVal, this`HPF2PrvOtVal, this`HPF2PrvOtTot
      modifies this`HPF1PrvInVal, this`HPF1PrvOtVal, this`DiodeClipCliped
      modifies this`FindOutSmpPrvIn, this`FindOutSmpPrvOt
      ensures var s := FindOutSmp.Run(cfg, old(Chan(chn - 1)), x, old(FindOutSmpPrvIn[chn - 1]),
                                      old(FindOutSmpPrvOt[chn - 1]), FindOutSmpMaxDif);
              var k := SidePath.Check(cfg, old(Chan(chn - 1)), s.NxtGus);
              r == s.NxtOut && DiodeClipCliped == k.cliped && H1(chn - 1) == k.ch.h1 && H2(chn - 1) == k.ch.h2
      ensures Gate(chn - 1) == old(Gate(chn - 1)) && Vals(chn - 1) == old(Vals(chn - 1))
      ensures Gate(2 - chn) == old(Gate(2 - chn)) && Vals(2 - chn) == old(Vals(2 - chn))
      ensures FindOutSmpPrvIn == old(FindOutSmpPrvIn)[chn - 1 := x]
      ensures FindOutSmpPrvOt == old(FindOutSmpPrvOt)[chn - 1 := r]
      ensures H1(2 - chn) == old(H1(2 - chn)) && H2(2 - chn) == old(H2(2 - chn))
    {
      ghost var ch0 := Chan(chn - 1);
      hide *;
      FindOutSmp.RunSearches(cfg, ch0, x, FindOutSmpPrvIn[chn - 1], FindOutSmpPrvOt[chn - 1], FindOutSmpMaxDif);
      var s := FindOutSmpFirst(x, chn, ch0);
      s := FindOutSmpLoop(x, chn, s, ch0);
      FindOutSmpPrvIn := FindOutSmpPrvIn[chn - 1 := x];
      FindOutSmpPrvOt := FindOutSmpPrvOt[chn - 1 := s.NxtOut];
      r := s.NxtOut;
    }

    // -------------------------------------------------------------------
    // libdolbyb.c: one sample of the frame loops

    /** Pass n of one encoder sample: one committed side-path sample,
      * mixed with x and added to the total of the first n - 1 passes. */
    method EncodePass(x: int, chn: int, n: nat, tot: int, ghost ch0: SidePath.Channel, ghost cl0: bool) returns (tot': int)
      requires cfg.Valid() && 1 <= chn <= MaxChnl && n >= 1
      requires var p := Libdolbyb.EncodePasses(cfg, ch0, cl0, x, n - 1);
               && tot == p.tot && DiodeClipCliped == p.cliped
               && H1(chn - 1) == p.ch.h1 && H2(chn - 1) == p.ch.h2 && Gate(chn - 1) == p.ch.gate && Vals(chn - 1) == p.ch.vals
      modifies this`HPF2PrvIn, this`HPF2PrvOt, this`DCfilterPrvVal, this`DCfilterPrvAccVal
      modifies this`HPF1PrvIn, this`HPF1PrvOt
      modifies this`SetGatePvrSmp1, this`SetGatePvrSmp2, this`SetGateOut
      modifies this`HPF2SetValsPot, this`HPF2SetValsAlp, this`HPF2SetValsFPt, this`DiodeClipCliped
      ensures var p := Libdolbyb.EncodePasses(cfg, ch0, cl0, x, n);
              && tot' == p.tot && DiodeClipCliped == p.cliped
              && H1(chn - 1) == p.ch.h1 && H2(chn - 1) == p.ch.h2 && Gate(chn - 1) == p.ch.gate && Vals(chn - 1) == p.ch.vals
      ensures H1(2 - chn) == old(H1(2 - chn)) && H2(2 - chn) == old(H2(2 - chn))
      ensures Gate(2 - chn) == old(Gate(2 - chn)) && Vals(2 - chn) == old(Vals(2 - chn))
    {
      hide *;
      ghost var p := Libdolbyb.EncodePasses(cfg, ch0, cl0, x, n - 1);
      Libdolbyb.EncodePassesStep(cfg, ch0, cl0, x, n);
      var sidSmp := SidePathStep(x, chn);
      tot' := tot + Mixers.Encode(x, sidSmp);
    }

    /** The InUS up-sampled passes of one encoder sample: the sample x
      * runs through the committed side path InUS times and each side-path
      * output is mixed with x; the mixed values are summed. */
    method EncodePassLoop(x: int, chn: int) returns (totSmp: int)
      requires cfg.Valid() && 1 <= chn <= MaxChnl && InUS >= 0
      modifies this`HPF2PrvIn, this`HPF2PrvOt, this`DCfilterPrvVal, this`DCfilterPrvAccVal
      modifies this`HPF1PrvIn, this`HPF1PrvOt
      modifies this`SetGatePvrSmp1, this`SetGatePvrSmp2, this`SetGateOut
      modifies this`HPF2SetValsPot, this`HPF2SetValsAlp, this`HPF2SetValsFPt, this`DiodeClipCliped
      ensures var p := Libdolbyb.EncodePasses(cfg, SidePath.Channel(old(H1(chn - 1)), old(H2(chn - 1)), old(Gate(chn - 1)), old(Vals(chn - 1))),
                                              old(DiodeClipCliped), x, InUS);
              && totSmp == p.tot && DiodeClipCliped == p.cliped
              && H1(chn - 1) == p.ch.h1 && H2(chn - 1) == p.ch.h2 && Gate(chn - 1) == p.ch.gate && Vals(chn - 1) == p.ch.vals
      ensures H1(2 - chn) == old(H1(2 - chn)) && H2(2 - chn) == old(H2(2 - chn))
      ensures Gate(2 - chn) == old(Gate(2 - chn)) && Vals(2 - chn) == old(Vals(2 - chn))
    {
      ghost var ch0 := SidePath.Channel(H1(chn - 1), H2(chn - 1), Gate(chn - 1), Vals(chn - 1));
      ghost var cl0 := DiodeClipCliped;
      Libdolbyb.EncodePassesZero(cfg, ch0, cl0, x);
      hide *;
      totSmp := 0;
      for upCnt := 1 to InUS + 1
        invariant var p := Libdolbyb.EncodePasses(cfg, ch0, cl0, x, upCnt - 1);
                  && totSmp == p.tot && DiodeClipCliped == p.cliped
                  && H1(chn - 1) == p.ch.h1 && H2(chn - 1) == p.ch.h2 && Gate(chn - 1) == p.ch.gate && Vals(chn - 1) == p.ch.vals
        invariant H1(2 - chn) == old(H1(2 - chn)) && H2(2 - chn) == old(H2(2 - chn))
        invariant Gate(2 - chn) == old(Gate(2 - chn)) && Vals(2 - chn) == old(Vals(2 - chn))
      {
        totSmp := EncodePass(x, chn, upCnt, totSmp, ch0, cl0);
      }
    }

    /** One input sample of dolbyb_encode on channel chn: the sample is
      * read, scaled by SmpMux and run InUS times through the side path,
      * each time mixed with the side-path output; the average is scaled
      * back, saturated and written. */
    method EncodeSample(d: Libdolbyb.Depth, bs: seq<Libdolbyb.byte>, chn: int) returns (out: seq<Libdolbyb.byte>)
      requires Started() && Libdolbyb.Sound(d) && |bs| == d.NumByt && 1 <= chn <= MaxChnl
      modifies this`HPF2PrvIn, this`HPF2PrvOt, this`DCfilterPrvVal, this`DCfilterPrvAccVal
      modifies this`HPF1PrvIn, this`HPF1PrvOt
      modifies this`SetGatePvrSmp1, this`SetGatePvrSmp2, this`SetGateOut
      modifies this`HPF2SetValsPot, this`HPF2SetValsAlp, this`HPF2SetValsFPt, this`DiodeClipCliped
      ensures Libdolbyb.Coded(out, Coder()) == Libdolbyb.EncodeSample(Setup(d), old(Coder()), chn - 1, bs)
    {
      hide *;
      TwoChannels();
      SetupIs(d);
      CoderIs();
      ChanParts(chn - 1);
      ChanParts(2 - chn);
      Libdolbyb.EncodeSampleParts(Setup(d), Coder(), chn - 1, bs);
      var smpVal := Libdolbyb.Unpack(d, bs) * SmpMux;
      var totSmp := EncodePassLoop(smpVal, chn);
      var outSmp := Div(Div(totSmp, InUS), SmpMux);
      var v := Libdolbyb.Saturate(d, outSmp);
      out := Libdolbyb.Pack(d, v);
      Libdolbyb.AverageParts(Setup(d), totSmp);
      CoderIs();
      ChanParts(chn - 1);
      ChanParts(2 - chn);
    }

    /** The search half of a decoder pass from the state q of channel
      * chn: FindOutSmp leaves the channel as the check of the guess it
      * settled on, and records x and that guess's output. */
    method DecodeSearch(x: int, chn: int, ghost p: Libdolbyb.Setup, ghost q: Libdolbyb.DecPasses)
      requires p.Valid() && p.c == cfg && p.maxDif == FindOutSmpMaxDif && 1 <= chn <= MaxChnl
      requires DecState(chn - 1, q)
      modifies this`HPF2PrvInVal, this`HPF2PrvOtVal, this`HPF2PrvOtTot
      modifies this`HPF1PrvInVal, this`HPF1PrvOtVal, this`DiodeClipCliped
      modifies this`FindOutSmpPrvIn, this`FindOutSmpPrvOt
      ensures Chan(chn - 1) == Libdolbyb.PassCheck(p, q, x).ch
      ensures PrvIn(chn - 1) == x && PrvOt(chn - 1) == Libdolbyb.PassSearch(p, q, x).NxtOut
      ensures Chan(2 - chn) == old(Chan(2 - chn)) && PrvIn(2 - chn) == old(PrvIn(2 - chn)) && PrvOt(2 - chn) == old(PrvOt(2 - chn))
    {
      hide *;
      TwoChannels();
      Libdolbyb.SetupParts(p);
      Libdolbyb.PassParts(p, q, x);
      DecStateIs(chn - 1, q);
      ChanParts(chn - 1);
      ChanParts(2 - chn);
      PrvParts(chn - 1);
      PrvParts(2 - chn);
      SidePath.CheckKeepsControl(cfg, q.ch, Libdolbyb.PassSearch(p, q, x).NxtGus);
      var r := FindOutSmpRun(x, chn);
      ChanParts(chn - 1);
      ChanParts(2 - chn);
      PrvParts(chn - 1);
      PrvParts(2 - chn);
    }

    /** The commit half of a decoder pass from the state q of channel chn:
      * with the channel as the search left it, SidePathUpdate commits the
      * check of the last guess, and its output, unmixed from x, is added
      * to the total. */
    method DecodeCommit(x: int, chn: int, tot: int, ghost p: Libdolbyb.Setup, ghost q: Libdolbyb.DecPasses) returns (tot': int)
      requires p.Valid() && p.c == cfg && 1 <= chn <= MaxChnl && tot == q.tot
      requires Chan(chn - 1) == Libdolbyb.PassCheck(p, q, x).ch
      requires PrvIn(chn - 1) == x && PrvOt(chn - 1) == Libdolbyb.PassSearch(p, q, x).NxtOut
      modifies this`HPF2PrvIn, this`HPF2PrvOt, this`DCfilterPrvVal, this`DCfilterPrvAccVal
      modifies this`HPF1PrvIn, this`HPF1PrvOt
      modifies this`SetGatePvrSmp1, this`SetGatePvrSmp2, this`SetGateOut
      modifies this`HPF2SetValsPot, this`HPF2SetValsAlp, this`HPF2SetValsFPt, this`DiodeClipCliped
      ensures DecState(chn - 1, Libdolbyb.DecodeStep(p, q, x)) && tot' == Libdolbyb.DecodeStep(p, q, x).tot
      ensures Chan(2 - chn) == old(Chan(2 - chn)) && PrvIn(2 - chn) == old(PrvIn(2 - chn)) && PrvOt(2 - chn) == old(PrvOt(2 - chn))
    {
      hide *;
      Libdolbyb.SetupParts(p);
      Libdolbyb.DecodeStepParts(p, q, x);
      ChanParts(chn - 1);
      ChanParts(2 - chn);
      var u := SidePathUpdate(chn);
      tot' := tot + Mixers.Decode(x, u);
      ChanParts(chn - 1);
      ChanParts(2 - chn);
      DecStateIs(chn - 1, Libdolbyb.DecodeStep(p, q, x));
    }

    /** Pass n of one decoder sample on channel chn, which n - 1 passes
      * from ch0, cl0, in0 and ot0 have brought to their state and total:
      * FindOutSmp searches for the output whose encoding is x, leaving
      * the channel's filters as the check of its last guess left them;
      * SidePathUpdate commits that check, and its output, unmixed from x,
      * is added to the total. */
    method DecodePass(x: int, chn: int, n: nat, tot: int, ghost p: Libdolbyb.Setup,
                      ghost ch0: SidePath.Channel, ghost cl0: bool, ghost in0: int, ghost ot0: int) returns (tot': int)
      requires p.Valid() && p.c == cfg && p.maxDif == FindOutSmpMaxDif && 1 <= chn <= MaxChnl && n >= 1
      requires DecAfter(chn - 1, p, ch0, cl0, in0, ot0, x, n - 1, tot)
      modifies this`HPF2PrvIn, this`HPF2PrvOt, this`DCfilterPrvVal, this`DCfilterPrvAccVal
      modifies this`HPF1PrvIn, this`HPF1PrvOt, this`HPF2PrvInVal, this`HPF2PrvOtVal, this`HPF2PrvOtTot
      modifies this`HPF1PrvInVal, this`HPF1PrvOtVal
      modifies this`SetGatePvrSmp1, this`SetGatePvrSmp2, this`SetGateOut
      modifies this`HPF2SetValsPot, this`HPF2SetValsAlp, this`HPF2SetValsFPt, this`DiodeClipCliped
      modifies this`FindOutSmpPrvIn, this`FindOutSmpPrvOt
      ensures DecAfter(chn - 1, p, ch0, cl0, in0, ot0, x, n, tot')
      ensures Chan(2 - chn) == old(Chan(2 - chn)) && PrvIn(2 - chn) == old(PrvIn(2 - chn)) && PrvOt(2 - chn) == old(PrvOt(2 - chn))
    {
      hide *;
      ghost var q := Libdolbyb.DecodePasses(p, ch0, cl0, in0, ot0, x, n - 1);
      Libdolbyb.DecodePassesStep(p, ch0, cl0, in0, ot0, x, n);
      DecAfterIs(chn - 1, p, ch0, cl0, in0, ot0, x, n - 1, tot);
      DecodeSearch(x, chn, p, q);
      tot' := DecodeCommit(x, chn, tot, p, q);
      DecAfterIs(chn - 1, p, ch0, cl0, in0, ot0, x, n, tot');
    }

    /** The InUS passes of one decoder sample: each pass searches and
      * commits, and the unmixed outputs are summed. */
    method DecodePassLoop(x: int, chn: int, ghost p: Libdolbyb.Setup) returns (totSmp: int)
      requires p.Valid() && p.c == cfg && p.maxDif == FindOutSmpMaxDif && 1 <= chn <= MaxChnl && InUS >= 0
      modifies this`HPF2PrvIn, this`HPF2PrvOt, this`DCfilterPrvVal, this`DCfilterPrvAccVal
      modifies this`HPF1PrvIn, this`HPF1PrvOt, this`HPF2PrvInVal, this`HPF2PrvOtVal, this`HPF2PrvOtTot
      modifies this`HPF1PrvInVal, this`HPF1PrvOtVal
      modifies this`SetGatePvrSmp1, this`SetGatePvrSmp2, this`SetGateOut
      modifies this`HPF2SetValsPot, this`HPF2SetValsAlp, this`HPF2SetValsFPt, this`DiodeClipCliped
      modifies this`FindOutSmpPrvIn, this`FindOutSmpPrvOt
      ensures var q := Libdolbyb.DecodePasses(p, old(Chan(chn - 1)), old(DiodeClipCliped), old(PrvIn(chn - 1)), old(PrvOt(chn - 1)), x, InUS);
              DecState(chn - 1, q) && totSmp == q.tot
      ensures Chan(2 - chn) == old(Chan(2 - chn)) && PrvIn(2 - chn) == old(PrvIn(2 - chn)) && PrvOt(2 - chn) == old(PrvOt(2 - chn))
    {
      hide *;
      ghost var ch0, cl0, in0, ot0 := Chan(chn - 1), DiodeClipCliped, PrvIn(chn - 1), PrvOt(chn - 1);
      Libdolbyb.DecodePassesZero(p, ch0, cl0, in0, ot0, x);
      ghost var ch1, in1, ot1 := Chan(2 - chn), PrvIn(2 - chn), PrvOt(2 - chn);
      DecStateIs(chn - 1, Libdolbyb.DecPasses(0, ch0, cl0, in0, ot0));
      DecAfterIs(chn - 1, p, ch0, cl0, in0, ot0, x, 0, 0);
      totSmp := 0;
      for upCnt := 1 to InUS + 1
        invariant DecAfter(chn - 1, p, ch0, cl0, in0, ot0, x, upCnt - 1, totSmp)
        invariant Chan(2 - chn) == ch1 && PrvIn(2 - chn) == in1 && PrvOt(2 - chn) == ot1
      {
        totSmp := DecodePass(x, chn, upCnt, totSmp, p, ch0, cl0, in0, ot0);
      }
      DecAfterIs(chn - 1, p, ch0, cl0, in0, ot0, x, InUS, totSmp);
    }

    /** One input sample of dolbyb_decode on channel chn: the sample is
      * read, scaled by SmpMux and decoded InUS times, each pass searching
      * for the output whose encoding it is and committing the side path
      * to that output; the average is scaled back, saturated and
      * written. */
    method DecodeSample(d: Libdolbyb.Depth, bs: seq<Libdolbyb.byte>, chn: int) returns (out: seq<Libdolbyb.byte>)
      requires Started() && Libdolbyb.Sound(d) && |bs| == d.NumByt && 1 <= chn <= MaxChnl
      modifies this`HPF2PrvIn, this`HPF2PrvOt, this`DCfilterPrvVal, this`DCfilterPrvAccVal
      modifies this`HPF1PrvIn, this`HPF1PrvOt, this`HPF2PrvInVal, this`HPF2PrvOtVal, this`HPF2PrvOtTot
      modifies this`HPF1PrvInVal, this`HPF1PrvOtVal
      modifies this`SetGatePvrSmp1, this`SetGatePvrSmp2, this`SetGateOut
      modifies this`HPF2SetValsPot, this`HPF2SetValsAlp, this`HPF2SetValsFPt, this`DiodeClipCliped
      modifies this`FindOutSmpPrvIn, this`FindOutSmpPrvOt
      ensures Libdolbyb.Coded(out, Coder()) == Libdolbyb.DecodeSample(Setup(d), old(Coder()), chn - 1, bs)
    {
      hide *;
      TwoChannels();
      SetupIs(d);
      CoderIs();
      PrvParts(chn - 1);
      PrvParts(2 - chn);
      Libdolbyb.DecodeSampleParts(Setup(d), Coder(), chn - 1, bs);
      ghost var st := Coder();
      var smpVal := Libdolbyb.Unpack(d, bs) * SmpMux;
      ghost var q := Libdolbyb.DecodePasses(Setup(d), st.chans[chn - 1], st.cliped, st.prvIn[chn - 1], st.prvOt[chn - 1], smpVal, InUS);
      var totSmp := DecodePassLoop(smpVal, chn, Setup(d));
      DecStateIs(chn - 1, q);
      var outSmp := Div(Div(totSmp, InUS), SmpMux);
      var v := Libdolbyb.Saturate(d, outSmp);
      out := Libdolbyb.Pack(d, v);
      Libdolbyb.AverageParts(Setup(d), totSmp);
      CoderIs();
      PrvParts(chn - 1);
      PrvParts(2 - chn);
    }
    /** Sample k of the buffer, on channel chn, through the encoder after
      * the first k: its bytes are read from inp, and what EncodeSample
      * writes goes to outp right after the output of those k. */
    method EncodeNext(d: Libdolbyb.Depth, inp: seq<Libdolbyb.byte>, outp: array<Libdolbyb.byte>,
                      ghost o0: seq<Libdolbyb.byte>, ghost st0: Libdolbyb.Coder, k: nat, chn: int)
      requires Started() && Libdolbyb.Sound(d) && 1 <= chn <= NumChn && k % NumChn == chn - 1
      requires (k + 1) * d.NumByt <= |inp| && (k + 1) * d.NumByt <= outp.Length
      requires EncodedUpTo(d, inp, outp, o0, st0, k)
      modifies this`HPF2PrvIn, this`HPF2PrvOt, this`DCfilterPrvVal, this`DCfilterPrvAccVal
      modifies this`HPF1PrvIn, this`HPF1PrvOt
      modifies this`SetGatePvrSmp1, this`SetGatePvrSmp2, this`SetGateOut
      modifies this`HPF2SetValsPot, this`HPF2SetValsAlp, this`HPF2SetValsFPt, this`DiodeClipCliped
      modifies outp
      ensures EncodedUpTo(d, inp, outp, o0, st0, k + 1)
    {
      hide *;
      SetupIs(d);
      ghost var p, full := Setup(d), outp[..];
      var n := d.NumByt;
      Libdolbyb.MulNext(k, n);
      EncodedUpToIs(d, inp, outp, o0, st0, k);
      var out := EncodeSample(d, inp[k * n .. k * n + n], chn);
      Put(outp, k * n, out);
      SetupIs(d);
      Libdolbyb.EncodeFramesNext(p, st0, inp, o0, k, k * n, chn - 1, Libdolbyb.EncodeFrames(p, st0, inp, k), inp[k * n .. k * n + n], Libdolbyb.Coded(out, Coder()), full, outp[..]);
      EncodedUpToIs(d, inp, outp, o0, st0, k + 1);
    }

    /** Frame smpCnt, whose first sample is sample base of the buffer:
      * its NumChn samples through the encoder, channel by channel. */
    method EncodeFrame(d: Libdolbyb.Depth, inp: seq<Libdolbyb.byte>, outp: array<Libdolbyb.byte>,
                    ghost o0: seq<Libdolbyb.byte>, ghost st0: Libdolbyb.Coder, smpCnt: nat, base: nat, nframes: nat)
      requires Started() && Libdolbyb.Sound(d) && smpCnt < nframes && base == smpCnt * NumChn
      requires nframes * NumChn * d.NumByt <= |inp| && nframes * NumChn * d.NumByt <= outp.Length
      requires EncodedUpTo(d, inp, outp, o0, st0, base)
      modifies this`HPF2PrvIn, this`HPF2PrvOt, this`DCfilterPrvVal, this`DCfilterPrvAccVal
      modifies this`HPF1PrvIn, this`HPF1PrvOt
      modifies this`SetGatePvrSmp1, this`SetGatePvrSmp2, this`SetGateOut
      modifies this`HPF2SetValsPot, this`HPF2SetValsAlp, this`HPF2SetValsFPt, this`DiodeClipCliped
      modifies outp
      ensures EncodedUpTo(d, inp, outp, o0, st0, base + NumChn)
    {
      hide *;
      SetupIs(d);
      for chn := 1 to NumChn + 1
        invariant EncodedUpTo(d, inp, outp, o0, st0, base + chn - 1)
      {
        Libdolbyb.ChannelOf(smpCnt, NumChn, chn - 1);
        Libdolbyb.SampleFits(smpCnt, NumChn, chn, nframes, d.NumByt);
        EncodeNext(d, inp, outp, o0, st0, base + chn - 1, chn);
      }
    }

    /** All nframes frames of inp through the encoder into outp, at depth d. */
    method EncodeAll(d: Libdolbyb.Depth, inp: seq<Libdolbyb.byte>, outp: array<Libdolbyb.byte>, nframes: nat)
      requires Started() && Libdolbyb.Sound(d)
      requires nframes * NumChn * d.NumByt <= |inp| && nframes * NumChn * d.NumByt <= outp.Length
      modifies this`HPF2PrvIn, this`HPF2PrvOt, this`DCfilterPrvVal, this`DCfilterPrvAccVal
      modifies this`HPF1PrvIn, this`HPF1PrvOt
      modifies this`SetGatePvrSmp1, this`SetGatePvrSmp2, this`SetGateOut
      modifies this`HPF2SetValsPot, this`HPF2SetValsAlp, this`HPF2SetValsFPt, this`DiodeClipCliped
      modifies outp
      ensures EncodedUpTo(d, inp, outp, old(outp[..]), old(Coder()), nframes * NumChn)
    {
      hide *;
      ghost var st0, o0 := Coder(), outp[..];
      SetupIs(d);
      CoderIs();
      Libdolbyb.EncodeFramesZero(Setup(d), st0, inp);
      EncodedUpToIs(d, inp, outp, o0, st0, 0);
      for smpCnt := 0 to nframes
        invariant EncodedUpTo(d, inp, outp, o0, st0, smpCnt * NumChn)
      {
        EncodeFrame(d, inp, outp, o0, st0, smpCnt, smpCnt * NumChn, nframes);
        Libdolbyb.MulNext(smpCnt, NumChn);
      }
    }

    /** dolbyb_encode: nframes frames of NumChn interleaved samples from
      * inp through the encoder into outp, sample by sample. A bit depth
      * other than 8, 16 or 24 is an error that changes nothing. */
    method Encode(inp: seq<Libdolbyb.byte>, outp: array<Libdolbyb.byte>, nframes: nat) returns (err: Libdolbyb.Option<string>)
      requires Started()
      requires Libdolbyb.DepthOf(BDepth).Some? ==>
                 nframes * NumChn * Libdolbyb.DepthOf(BDepth).value.NumByt <= |inp|
                 && nframes * NumChn * Libdolbyb.DepthOf(BDepth).value.NumByt <= outp.Length
      modifies this`HPF2PrvIn, this`HPF2PrvOt, this`DCfilterPrvVal, this`DCfilterPrvAccVal
      modifies this`HPF1PrvIn, this`HPF1PrvOt
      modifies this`SetGatePvrSmp1, this`SetGatePvrSmp2, this`SetGateOut
      modifies this`HPF2SetValsPot, this`HPF2SetValsAlp, this`HPF2SetValsFPt, this`DiodeClipCliped
      modifies outp
      ensures Libdolbyb.DepthOf(BDepth).None? ==>
                err == Libdolbyb.Some(Libdolbyb.DepthError) && Coder() == old(Coder()) && outp[..] == old(outp[..])
      ensures Libdolbyb.DepthOf(BDepth).Some? ==>
                err.None? && EncodedUpTo(Libdolbyb.DepthOf(BDepth).value, inp, outp, old(outp[..]), old(Coder()), nframes * NumChn)
    {
      var dd := Libdolbyb.DepthOf(BDepth);
      if dd.None? {
        return Libdolbyb.Some(Libdolbyb.DepthError);
      }
      EncodeAll(dd.value, inp, outp, nframes);
      err := Libdolbyb.None;
    }

    /** Sample k of the buffer, on channel chn, through the decoder after
      * the first k: its bytes are read from inp, and what DecodeSample
      * writes goes to outp right after the output of those k. */
    method DecodeNext(d: Libdolbyb.Depth, inp: seq<Libdolbyb.byte>, outp: array<Libdolbyb.byte>,
                      ghost o0: seq<Libdolbyb.byte>, ghost st0: Libdolbyb.Coder, k: nat, chn: int)
      requires Started() && Libdolbyb.Sound(d) && 1 <= chn <= NumChn && k % NumChn == chn - 1
      requires (k + 1) * d.NumByt <= |inp| && (k + 1) * d.NumByt <= outp.Length
      requires DecodedUpTo(d, inp, outp, o0, st0, k)
      modifies this`HPF2PrvIn, this`HPF2PrvOt, this`DCfilterPrvVal, this`DCfilterPrvAccVal
      modifies this`HPF1PrvIn, this`HPF1PrvOt, this`HPF2PrvInVal, this`HPF2PrvOtVal, this`HPF2PrvOtTot
      modifies this`HPF1PrvInVal, this`HPF1PrvOtVal
      modifies this`SetGatePvrSmp1, this`SetGatePvrSmp2, this`SetGateOut
      modifies this`HPF2SetValsPot, this`HPF2SetValsAlp, this`HPF2SetValsFPt, this`DiodeClipCliped
      modifies this`FindOutSmpPrvIn, this`FindOutSmpPrvOt
      modifies outp
      ensures DecodedUpTo(d, inp, outp, o0, st0, k + 1)
    {
      hide *;
      SetupIs(d);
      ghost var p, full := Setup(d), outp[..];
      var n := d.NumByt;
      Libdolbyb.MulNext(k, n);
      DecodedUpToIs(d, inp, outp, o0, st0, k);
      var out := DecodeSample(d, inp[k * n .. k * n + n], chn);
      Put(outp, k * n, out);
      SetupIs(d);
      Libdolbyb.DecodeFramesNext(p, st0, inp, o0, k, k * n, chn - 1, Libdolbyb.DecodeFrames(p, st0, inp, k), inp[k * n .. k * n + n], Libdolbyb.Coded(out, Coder()), full, outp[..]);
      DecodedUpToIs(d, inp, outp, o0, st0, k + 1);
    }

    /** Frame smpCnt, whose first sample is sample base of the buffer:
      * its NumChn samples through the decoder, channel by channel. */
    method DecodeFrame(d: Libdolbyb.Depth, inp: seq<Libdolbyb.byte>, outp: array<Libdolbyb.byte>,
                    ghost o0: seq<Libdolbyb.byte>, ghost st0: Libdolbyb.Coder, smpCnt: nat, base: nat, nframes: nat)
      requires Started() && Libdolbyb.Sound(d) && smpCnt < nframes && base == smpCnt * NumChn
      requires nframes * NumChn * d.NumByt <= |inp| && nframes * NumChn * d.NumByt <= outp.Length
      requires DecodedUpTo(d, inp, outp, o0, st0, base)
      modifies this`HPF2PrvIn, this`HPF2PrvOt, this`DCfilterPrvVal, this`DCfilterPrvAccVal
      modifies this`HPF1PrvIn, this`HPF1PrvOt, this`HPF2PrvInVal, this`HPF2PrvOtVal, this`HPF2PrvOtTot
      modifies this`HPF1PrvInVal, this`HPF1PrvOtVal
      modifies this`SetGatePvrSmp1, this`SetGatePvrSmp2, this`SetGateOut
      modifies this`HPF2SetValsPot, this`HPF2SetValsAlp, this`HPF2SetValsFPt, this`DiodeClipCliped
      modifies this`FindOutSmpPrvIn, this`FindOutSmpPrvOt
      modifies outp
      ensures DecodedUpTo(d, inp, outp, o0, st0, base + NumChn)
    {
      hide *;
      SetupIs(d);
      for chn := 1 to NumChn + 1
        invariant DecodedUpTo(d, inp, outp, o0, st0, base + chn - 1)
      {
        Libdolbyb.ChannelOf(smpCnt, NumChn, chn - 1);
        Libdolbyb.SampleFits(smpCnt, NumChn, chn, nframes, d.NumByt);
        DecodeNext(d, inp, outp, o0, st0, base + chn - 1, chn);
      }
    }

    /** All nframes frames of inp through the decoder into outp, at depth d. */
    method DecodeAll(d: Libdolbyb.Depth, inp: seq<Libdolbyb.byte>, outp: array<Libdolbyb.byte>, nframes: nat)
      requires Started() && Libdolbyb.Sound(d)
      requires nframes * NumChn * d.NumByt <= |inp| && nframes * NumChn * d.NumByt <= outp.Length
      modifies this`HPF2PrvIn, this`HPF2PrvOt, this`DCfilterPrvVal, this`DCfilterPrvAccVal
      modifies this`HPF1PrvIn, this`HPF1PrvOt, this`HPF2PrvInVal, this`HPF2PrvOtVal, this`HPF2PrvOtTot
      modifies this`HPF1PrvInVal, this`HPF1PrvOtVal
      modifies this`SetGatePvrSmp1, this`SetGatePvrSmp2, this`SetGateOut
      modifies this`HPF2SetValsPot, this`HPF2SetValsAlp, this`HPF2SetValsFPt, this`DiodeClipCliped
      modifies this`FindOutSmpPrvIn, this`FindOutSmpPrvOt
      modifies outp
      ensures DecodedUpTo(d, inp, outp, old(outp[..]), old(Coder()), nframes * NumChn)
    {
      hide *;
      ghost var st0, o0 := Coder(), outp[..];
      SetupIs(d);
      CoderIs();
      Libdolbyb.DecodeFramesZero(Setup(d), st0, inp);
      DecodedUpToIs(d, inp, outp, o0, st0, 0);
      for smpCnt := 0 to nframes
        invariant DecodedUpTo(d, inp, outp, o0, st0, smpCnt * NumChn)
      {
        DecodeFrame(d, inp, outp, o0, st0, smpCnt, smpCnt * NumChn, nframes);
        Libdolbyb.MulNext(smpCnt, NumChn);
      }
    }

    /** dolbyb_decode: nframes frames of NumChn interleaved samples from
      * inp through the decoder into outp, sample by sample. A bit depth
      * other than 8, 16 or 24 is an error that changes nothing. */
    method Decode(inp: seq<Libdolbyb.byte>, outp: array<Libdolbyb.byte>, nframes: nat) returns (err: Libdolbyb.Option<string>)
      requires Started()
      requires Libdolbyb.DepthOf(BDepth).Some? ==>
                 nframes * NumChn * Libdolbyb.DepthOf(BDepth).value.NumByt <= |inp|
                 && nframes * NumChn * Libdolbyb.DepthOf(BDepth).value.NumByt <= outp.Length
      modifies this`HPF2PrvIn, this`HPF2PrvOt, this`DCfilterPrvVal, this`DCfilterPrvAccVal
      modifies this`HPF1PrvIn, this`HPF1PrvOt, this`HPF2PrvInVal, this`HPF2PrvOtVal, this`HPF2PrvOtTot
      modifies this`HPF1PrvInVal, this`HPF1PrvOtVal
      modifies this`SetGatePvrSmp1, this`SetGatePvrSmp2, this`SetGateOut
      modifies this`HPF2SetValsPot, this`HPF2SetValsAlp, this`HPF2SetValsFPt, this`DiodeClipCliped
      modifies this`FindOutSmpPrvIn, this`FindOutSmpPrvOt
      modifies outp
      ensures Libdolbyb.DepthOf(BDepth).None? ==>
                err == Libdolbyb.Some(Libdolbyb.DepthError) && Coder() == old(Coder()) && outp[..] == old(outp[..])
      ensures Libdolbyb.DepthOf(BDepth).Some? ==>
                err.None? && DecodedUpTo(Libdolbyb.DepthOf(BDepth).value, inp, outp, old(outp[..]), old(Coder()), nframes * NumChn)
    {
      var dd := Libdolbyb.DepthOf(BDepth);
      if dd.None? {
        return Libdolbyb.Some(Libdolbyb.DepthError);
      }
      DecodeAll(dd.value, inp, outp, nframes);
      err := Libdolbyb.None;
    }
    // -------------------------------------------------------------------
    // Calibrate.c

    /** CalibrateMakeSinTab: a table of whole cycles of the test tone,
      * sample i of it being sine(i), the rounded sine the C code computes
      * in floating point. */
    method CalibrateMakeSinTab(sine: int -> int)
      requires SmpSec > 0
      modifies this`CalibrateSinTab, this`CalibrateSinTabMax
      ensures CalibrateSinTabMax == Cal.SinTabLen(SmpSec)
      ensures CalibrateSinTab == Cal.Tone(sine, CalibrateSinTabMax)
    {
      var n := Cal.SinTabMax(SmpSec);
      CalibrateSinTabMax := n;
      CalibrateSinTab := [];
      for smpCnt := 0 to n
        invariant CalibrateSinTabMax == n && CalibrateSinTab == Cal.Tone(sine, smpCnt)
      {
        CalibrateSinTab := CalibrateSinTab + [sine(smpCnt)];
      }
    }

    /** CalibrateInit: the sample counts that end the warm-up and the test
      * for warmUp seconds of warm-up and tstLen seconds of measurement,
      * and the tone table. */
    method CalibrateInit(warmUp: int, tstLen: int, sine: int -> int)
      requires SmpSec > 0
      modifies this`CalibrateWrmSam, this`CalibrateEndSam, this`CalibrateSinTab, this`CalibrateSinTabMax
      ensures CalibrateWrmSam == warmUp * SmpSec && CalibrateEndSam == (tstLen + warmUp) * SmpSec
      ensures CalibrateSinTabMax == Cal.SinTabLen(SmpSec) && CalibrateSinTab == Cal.Tone(sine, CalibrateSinTabMax)
    {
      CalibrateWrmSam := warmUp * SmpSec;
      CalibrateEndSam := (tstLen + warmUp) * SmpSec;
      CalibrateMakeSinTab(sine);
    }

    /** CalibrateDeInit: the tone table is freed. */
    method CalibrateDeInit()
      modifies this`CalibrateSinTab
      ensures CalibrateSinTab == []
    {
      CalibrateSinTab := [];
    }

    /** CalibrateNextTestToneSamp: the table read round and round, the
      * counter being the position in the tone. */
    method CalibrateNextTestToneSamp() returns (v: int)
      requires CalibrateSinTabMax >= 1 && |CalibrateSinTab| == CalibrateSinTabMax
      modifies this`CalibrateSmpCnt
      ensures CalibrateSmpCnt == old(CalibrateSmpCnt) + 1
      ensures 0 <= old(CalibrateSmpCnt) % CalibrateSinTabMax < CalibrateSinTabMax
      ensures v == CalibrateSinTab[old(CalibrateSmpCnt) % CalibrateSinTabMax]
    {
      v := CalibrateSinTab[CalibrateSmpCnt % CalibrateSinTabMax];
      CalibrateSmpCnt := CalibrateSmpCnt + 1;
    }

    /** CalibrateRunNoNRTest: five seconds of the tone through the encode
      * mixer with a silent side path, which passes each sample unchanged;
      * the result is the mean absolute sample, the reference level of
      * Calibrate.NoNRLevel. The table is freed afterwards. */
    method CalibrateRunNoNRTest(sine: int -> int) returns (r: int)
      requires SmpSec > 0
      modifies this`CalibrateWrmSam, this`CalibrateEndSam, this`CalibrateSinTab, this`CalibrateSinTabMax, this`CalibrateSmpCnt
      ensures r == Cal.NoNRLevel(SmpSec, sine)
      ensures CalibrateWrmSam == 0 && CalibrateEndSam == 5 * SmpSec && CalibrateSmpCnt == CalibrateEndSam
      ensures CalibrateSinTabMax == Cal.SinTabLen(SmpSec) && CalibrateSinTab == []
    {
      CalibrateInit(0, 5, sine);
      var smpTot := 0;
      CalibrateSmpCnt := 0;
      while CalibrateSmpCnt < CalibrateEndSam
        invariant CalibrateWrmSam == 0 && CalibrateEndSam == 5 * SmpSec && CalibrateSmpCnt <= CalibrateEndSam
        invariant CalibrateSinTabMax == Cal.SinTabLen(SmpSec) && CalibrateSinTab == Cal.Tone(sine, CalibrateSinTabMax)
        invariant smpTot == Cal.ToneSum(CalibrateSinTab, CalibrateSmpCnt)
        decreases CalibrateEndSam - CalibrateSmpCnt
      {
        var tone := CalibrateNextTestToneSamp();
        var smpVal := Mixers.Encode(tone, 0);
        smpTot := smpTot + (if smpVal < 0 then -smpVal else smpVal);
      }
      CalibrateDeInit();
      r := Div(smpTot, CalibrateEndSam);
    }

    /** CalibrateFindSideAmp: the side amplitude search runs with the FET
      * clipped and its gate at 0 V on a fresh tone table; afterwards the
      * table is freed, the gate voltage restored and the FET unclipped.
      * The search's trials are floating-point encode runs; the amplitude
      * they settle on is amp. */
    method CalibrateFindSideAmp(amp: real, sine: int -> int) returns (r: real)
      requires SmpSec > 0
      modifies this`cfg, this`CalibrateWrmSam, this`CalibrateEndSam, this`CalibrateSinTab, this`CalibrateSinTabMax
      ensures r == amp && cfg == old(cfg).(FETClp := false)
      ensures CalibrateWrmSam == 0 && CalibrateEndSam == 5 * SmpSec
      ensures CalibrateSinTabMax == Cal.SinTabLen(SmpSec) && CalibrateSinTab == []
    {
      var oldGVt := cfg.FETGVt;
      CalibrateInit(0, 5, sine);
      cfg := cfg.(FETClp := true, FETGVt := 0);
      r := amp;
      CalibrateDeInit();
      cfg := cfg.(FETGVt := oldGVt, FETClp := false);
    }

    /** CalibrateFindSVlt: the source voltage search, with two seconds of
      * warm-up, the FET unclipped and the encode runs as the oracle; see
      * Calibrate.FindSVlt for what it finds. */
    method CalibrateFindSVlt(target: int, oracle: int -> int, sine: int -> int)
      returns (svt: int, ghost tryS: int, ghost prvS: int)
      requires SmpSec > 0 && oracle(Cal.LowS0) < target < oracle(Cal.HigS0)
      modifies this`cfg, this`CalibrateWrmSam, this`CalibrateEndSam, this`CalibrateSinTab, this`CalibrateSinTabMax
      ensures cfg == old(cfg).(FETClp := false)
      ensures Cal.SVltEnds(target, oracle, tryS, prvS)
      ensures oracle(tryS) == oracle(prvS) && Cal.LowS0 <= tryS <= Cal.HigS0 && Cal.LowS0 <= prvS <= Cal.HigS0
      ensures svt == Div(tryS + prvS + 1, 2) && Cal.LowS0 <= svt <= Cal.HigS0
      ensures CalibrateWrmSam == 2 * SmpSec && CalibrateEndSam == 7 * SmpSec
      ensures CalibrateSinTabMax == Cal.SinTabLen(SmpSec) && CalibrateSinTab == []
    {
      CalibrateInit(2, 5, sine);
      cfg := cfg.(FETClp := false);
      svt, tryS, prvS := Cal.FindSVlt(target, oracle);
      CalibrateDeInit();
    }

    /** Calibrate. A cached result for this sample rate, filter type and
      * up-sampling sets the side amplitude and the FET source voltage and
      * ends the calibration; otherwise CalibrateMeasure does. */
    method Calibrate(c: Calibration) returns (ghost tryS: int, ghost prvS: int)
      requires SmpSec > 0 && 1 <= cfg.FltTyp <= 4 && (AllHig || UpSmp >= 1)
      requires c.cache.None? ==>
                 c.recal.Valid() && c.oracle(Cal.LowS0) < c.svtOf(Cal.NoNRLevel(SmpSec, c.sine)) < c.oracle(Cal.HigS0)
      modifies this`cfg, this`DCfilterPrvVal, this`DCfilterPrvAccVal, this`HPF1PrvIn, this`HPF1PrvOt,
               this`HPF2PrvIn, this`HPF2PrvOt, this`SetGatePrvResVal, this`SetGatePvrSmp1, this`SetGatePvrSmp2,
               this`SetGateOut, this`HPF2SetValsPot, this`HPF2SetValsAlp, this`HPF2SetValsFPt
      modifies this`SidAmp, this`ThGain, this`CalibrateWrmSam, this`CalibrateEndSam, this`CalibrateSinTab, this`CalibrateSinTabMax, this`CalibrateSmpCnt
      ensures ThGain == old(ThGain)
      ensures c.cache.Some? ==> SidAmp == c.cache.value.0 && cfg == old(cfg).(FETSVt := c.cache.value.1)
      ensures c.cache.Some? ==>
                unchanged(this`DCfilterPrvVal, this`DCfilterPrvAccVal, this`HPF1PrvIn, this`HPF1PrvOt,
                          this`HPF2PrvIn, this`HPF2PrvOt, this`SetGatePrvResVal, this`SetGatePvrSmp1, this`SetGatePvrSmp2,
                          this`SetGateOut, this`HPF2SetValsPot, this`HPF2SetValsAlp, this`HPF2SetValsFPt)
      ensures c.cache.Some? ==>
                unchanged(this`CalibrateWrmSam, this`CalibrateEndSam, this`CalibrateSinTab, this`CalibrateSinTabMax,
                          this`CalibrateSmpCnt)
      ensures c.cache.None? ==> Measured(c, old(cfg), tryS, prvS)
    {
      hide *;
      if c.cache.Some? {
        SidAmp := c.cache.value.0;
        cfg := cfg.(FETSVt := c.cache.value.1);
        return 0, 0;
      }
      tryS, prvS := CalibrateMeasure(c);
    }

    /** What a calibration without a cached result leaves: the side
      * amplitude the search found, a source voltage between the two probes
      * the voltage search ended on (which the encode test cannot tell
      * apart, the last two of the voltage search), the FET unclipped with
      * its gate voltage kept, and the side path initialised again from the
      * calibrated values: filters cleared, gates at rest and the sliding
      * filters set for the new source voltage. */
    ghost predicate Measured(c: Calibration, cfg0: Config, tryS: int, prvS: int)
      reads this
    {
      && SidAmp == c.sideAmp
      && SmpSec > 0 && Cal.SVltEnds(c.svtOf(Cal.NoNRLevel(SmpSec, c.sine)), c.oracle, tryS, prvS)
      && c.oracle(tryS) == c.oracle(prvS) && Cal.LowS0 <= tryS <= Cal.HigS0 && Cal.LowS0 <= prvS <= Cal.HigS0
      && cfg.FETSVt == Div(tryS + prvS + 1, 2) && Cal.LowS0 <= cfg.FETSVt <= Cal.HigS0
      && cfg.Valid() && !cfg.FETClp && cfg.FETGVt == cfg0.FETGVt && cfg.FltTyp == cfg0.FltTyp
      && cfg.HPF2UpSmp == (if AllHig then 1 else UpSmp)
      && cfg.SidePathGainMux == c.recal.SidePathGainMux && cfg.SidePathGainVal == c.recal.SidePathGainVal
      && cfg.SidePathGcMux == c.recal.SidePathGcMux && cfg.SidePathGcVal == c.recal.SidePathGcVal
      && Cleared() && Primed()
      && CalibrateSinTab == []
    }

    /** Measured spelled out, for proofs that hide definitions. */
    lemma MeasuredIs(c: Calibration, cfg0: Config, tryS: int, prvS: int)
      ensures Measured(c, cfg0, tryS, prvS) <==>
              && SidAmp == c.sideAmp
              && SmpSec > 0 && Cal.SVltEnds(c.svtOf(Cal.NoNRLevel(SmpSec, c.sine)), c.oracle, tryS, prvS)
              && c.oracle(tryS) == c.oracle(prvS) && Cal.LowS0 <= tryS <= Cal.HigS0 && Cal.LowS0 <= prvS <= Cal.HigS0
              && cfg.FETSVt == Div(tryS + prvS + 1, 2) && Cal.LowS0 <= cfg.FETSVt <= Cal.HigS0
              && cfg.Valid() && !cfg.FETClp && cfg.FETGVt == cfg0.FETGVt && cfg.FltTyp == cfg0.FltTyp
              && cfg.HPF2UpSmp == (if AllHig then 1 else UpSmp)
              && cfg.SidePathGainMux == c.recal.SidePathGainMux && cfg.SidePathGainVal == c.recal.SidePathGainVal
              && cfg.SidePathGcMux == c.recal.SidePathGcMux && cfg.SidePathGcVal == c.recal.SidePathGcVal
              && Cleared() && Primed()
              && CalibrateSinTab == []
    {
    }

    /** The calibration proper: the test without noise reduction gives the
      * reference level, the two searches set the side amplitude and the
      * source voltage, the threshold gain (1 during the tests) is
      * restored, and the side path is initialised again with the
      * calibrated values. */
    method CalibrateMeasure(c: Calibration) returns (ghost tryS: int, ghost prvS: int)
      requires SmpSec > 0 && 1 <= cfg.FltTyp <= 4 && (AllHig || UpSmp >= 1)
      requires c.recal.Valid() && c.oracle(Cal.LowS0) < c.svtOf(Cal.NoNRLevel(SmpSec, c.sine)) < c.oracle(Cal.HigS0)
      modifies this`cfg, this`DCfilterPrvVal, this`DCfilterPrvAccVal, this`HPF1PrvIn, this`HPF1PrvOt,
               this`HPF2PrvIn, this`HPF2PrvOt, this`SetGatePrvResVal, this`SetGatePvrSmp1, this`SetGatePvrSmp2,
               this`SetGateOut, this`HPF2SetValsPot, this`HPF2SetValsAlp, this`HPF2SetValsFPt
      modifies this`SidAmp, this`ThGain, this`CalibrateWrmSam, this`CalibrateEndSam, this`CalibrateSinTab, this`CalibrateSinTabMax, this`CalibrateSmpCnt
      ensures ThGain == old(ThGain)
      ensures Measured(c, old(cfg), tryS, prvS)
    {
      hide *;
      var oldThGain := ThGain;
      ThGain := 1.0;
      var svt;
      svt, tryS, prvS := CalibrateSearch(c);
      cfg := cfg.(FETSVt := svt);
      ThGain := oldThGain;
      SidePathInit(c.recal);
      MeasuredIs(c, old(cfg), tryS, prvS);
    }

    /** The three test runs of a calibration: the reference level without
      * noise reduction, then the side amplitude search, then the source
      * voltage search aimed at the target for that reference level. */
    method CalibrateSearch(c: Calibration) returns (svt: int, ghost tryS: int, ghost prvS: int)
      requires SmpSec > 0
      requires c.oracle(Cal.LowS0) < c.svtOf(Cal.NoNRLevel(SmpSec, c.sine)) < c.oracle(Cal.HigS0)
      modifies this`cfg, this`SidAmp, this`CalibrateWrmSam, this`CalibrateEndSam, this`CalibrateSinTab
      modifies this`CalibrateSinTabMax, this`CalibrateSmpCnt
      ensures SidAmp == c.sideAmp && cfg == old(cfg).(FETClp := false) && CalibrateSinTab == []
      ensures Cal.SVltEnds(c.svtOf(Cal.NoNRLevel(SmpSec, c.sine)), c.oracle, tryS, prvS)
      ensures c.oracle(tryS) == c.oracle(prvS) && Cal.LowS0 <= tryS <= Cal.HigS0 && Cal.LowS0 <= prvS <= Cal.HigS0
      ensures svt == Div(tryS + prvS + 1, 2) && Cal.LowS0 <= svt <= Cal.HigS0
    {
      var offRes := CalibrateRunNoNRTest(c.sine);
      SidAmp := CalibrateFindSideAmp(c.sideAmp, c.sine);
      svt, tryS, prvS := CalibrateFindSVlt(c.svtOf(offRes), c.oracle, c.sine);
    }

    // -------------------------------------------------------------------
    // libdolbyb.c: SecondInit and dolbyb_start

    /** What the end of SecondInit leaves: the side path initialised for
      * the chosen up-sampling, with the filter type and the FET settings
      * of cfg0 kept, its filters cleared, its gates at rest and its
      * sliding filters set for them, and the decoder's search reset with
      * its width. */
    ghost predicate PathsReady(maxDif: int, cfg0: Config)
      reads this`cfg, this`AllHig, this`UpSmp, this`FindOutSmpMaxDif, this`FindOutSmpPrvIn, this`FindOutSmpPrvOt
      reads this`DCfilterPrvVal, this`DCfilterPrvAccVal, this`HPF1PrvIn, this`HPF1PrvOt, this`HPF2PrvIn, this`HPF2PrvOt
      reads this`SetGatePvrSmp1, this`SetGatePvrSmp2, this`SetGateOut
      reads this`HPF2SetValsPot, this`HPF2SetValsAlp, this`HPF2SetValsFPt
    {
      && cfg.Valid() && cfg.FltTyp == cfg0.FltTyp && cfg.FETClp == cfg0.FETClp
      && cfg.FETGVt == cfg0.FETGVt && cfg.FETSVt == cfg0.FETSVt
      && cfg.HPF2UpSmp == (if AllHig then 1 else UpSmp)
      && Cleared() && Primed()
      && FindOutSmpMaxDif == FindOutSmp.MaxDif(maxDif) && FindOutSmpPrvIn == [0, 0] && FindOutSmpPrvOt == [0, 0]
    }

    /** PathsReady spelled out, for proofs that hide definitions. */
    lemma PathsReadyIs(maxDif: int, cfg0: Config)
      ensures PathsReady(maxDif, cfg0) <==>
              && cfg.Valid() && cfg.FltTyp == cfg0.FltTyp && cfg.FETClp == cfg0.FETClp
              && cfg.FETGVt == cfg0.FETGVt && cfg.FETSVt == cfg0.FETSVt
              && cfg.HPF2UpSmp == (if AllHig then 1 else UpSmp)
              && Cleared() && Primed()
              && FindOutSmpMaxDif == FindOutSmp.MaxDif(maxDif) && FindOutSmpPrvIn == [0, 0] && FindOutSmpPrvOt == [0, 0]
    {
    }

    /** SecondInit: the dB conversions (floating point, given as decAMX and
      * thGain); a negative up-sampling setting is an error; a positive one
      * is used as it is, and 0 picks the smallest factor that takes the
      * sample rate to 200 kHz; all passes run on the input when AllHig is
      * set, otherwise one; then the side path and the decoder's search
      * are initialised. */
    method SecondInit(b: Built, maxDif: int, decAMX: real, thGain: real) returns (err: Libdolbyb.Option<string>)
      requires SmpSec > 0 && 1 <= cfg.FltTyp <= 4 && b.Valid()
      modifies this`cfg, this`DCfilterPrvVal, this`DCfilterPrvAccVal, this`HPF1PrvIn, this`HPF1PrvOt,
               this`HPF2PrvIn, this`HPF2PrvOt, this`SetGatePrvResVal, this`SetGatePvrSmp1, this`SetGatePvrSmp2,
               this`SetGateOut, this`HPF2SetValsPot, this`HPF2SetValsAlp, this`HPF2SetValsFPt
      modifies this`DecAMX, this`ThGain, this`UpSmp, this`InUS
      modifies this`FindOutSmpMaxDif, this`FindOutSmpPrvIn, this`FindOutSmpPrvOt
      ensures DecAMX == decAMX && ThGain == thGain
      ensures UpSamp < 0 ==>
                err == Libdolbyb.Some(Libdolbyb.UpSampError) && UpSmp == old(UpSmp) && InUS == old(InUS) && cfg == old(cfg)
      ensures UpSamp >= 0 ==>
                && err.None?
                && UpSmp == (if UpSamp > 0 then UpSamp else Libdolbyb.Needed(SmpSec))
                && InUS == (if AllHig then UpSmp else 1)
                && PathsReady(maxDif, old(cfg))
    {
      hide *;
      DecAMX, ThGain := decAMX, thGain;
      if UpSamp < 0 {
        return Libdolbyb.Some(Libdolbyb.UpSampError);
      }
      var upSmp;
      if UpSamp > 0 {
        upSmp := UpSamp;
      } else {
        upSmp := Libdolbyb.AutoUpSmp(SmpSec);
      }
      UpSmp, InUS := upSmp, if AllHig then upSmp else 1;
      InitPaths(b, maxDif);
      err := Libdolbyb.None;
    }

    /** The end of SecondInit: the side path, then the decoder's search. */
    method InitPaths(b: Built, maxDif: int)
      requires 1 <= cfg.FltTyp <= 4 && b.Valid() && (AllHig || UpSmp >= 1)
      modifies this`cfg, this`DCfilterPrvVal, this`DCfilterPrvAccVal, this`HPF1PrvIn, this`HPF1PrvOt,
               this`HPF2PrvIn, this`HPF2PrvOt, this`SetGatePrvResVal, this`SetGatePvrSmp1, this`SetGatePvrSmp2,
               this`SetGateOut, this`HPF2SetValsPot, this`HPF2SetValsAlp, this`HPF2SetValsFPt
      modifies this`FindOutSmpMaxDif, this`FindOutSmpPrvIn, this`FindOutSmpPrvOt
      ensures PathsReady(maxDif, old(cfg))
    {
      hide *;
      SidePathInit(b);
      FindOutSmpInit(maxDif);
      PathsReadyIs(maxDif, old(cfg));
    }

    /** What a successful dolbyb_start leaves: a session ready for the
      * frame loops, with the sample multiplier of its bit depth, the
      * up-sampling factor given or picked for its sample rate, the dB
      * conversions, and the calibrated (or cached) side amplitude and FET
      * source voltage. Encoding and decoding start from cleared filters
      * and gates at rest; after a calibration the sliding filters are set
      * for the calibrated voltage, while a cached voltage leaves them set
      * for the filter type's default one. */
    ghost predicate Launched(c: Calibration, decAMX: real, thGain: real, tryS: int, prvS: int)
      reads this
    {
      && SmpSec > 0 && Libdolbyb.DepthOf(BDepth).Some? && Started()
      && SmpMux == Libdolbyb.SmpMuxOf(Libdolbyb.DepthOf(BDepth).value)
      && UpSmp == (if UpSamp > 0 then UpSamp else Libdolbyb.Needed(SmpSec))
      && InUS == (if AllHig then UpSmp else 1)
      && DecAMX == decAMX && ThGain == thGain
      && Cleared()
      && (c.cache.Some? ==>
            && SidAmp == c.cache.value.0 && cfg.FETSVt == c.cache.value.1
            && PrimedFor(cfg.(FETSVt := Libdolbyb.FltDefaults(cfg.FltTyp).0)))
      && (c.cache.None? ==>
            && SidAmp == c.sideAmp && Cal.SVltEnds(c.svtOf(Cal.NoNRLevel(SmpSec, c.sine)), c.oracle, tryS, prvS)
            && c.oracle(tryS) == c.oracle(prvS)
            && cfg.FETSVt == Div(tryS + prvS + 1, 2) && Cal.LowS0 <= cfg.FETSVt <= Cal.HigS0
            && Primed())
    }

    /** Launched spelled out, for proofs that hide definitions. */
    lemma LaunchedIs(c: Calibration, decAMX: real, thGain: real, tryS: int, prvS: int)
      ensures Launched(c, decAMX, thGain, tryS, prvS) <==>
              && SmpSec > 0 && Libdolbyb.DepthOf(BDepth).Some? && Started()
              && SmpMux == Libdolbyb.SmpMuxOf(Libdolbyb.DepthOf(BDepth).value)
              && UpSmp == (if UpSamp > 0 then UpSamp else Libdolbyb.Needed(SmpSec))
              && InUS == (if AllHig then UpSmp else 1)
              && DecAMX == decAMX && ThGain == thGain
              && Cleared()
              && (c.cache.Some? ==>
                    && SidAmp == c.cache.value.0 && cfg.FETSVt == c.cache.value.1
                    && PrimedFor(cfg.(FETSVt := Libdolbyb.FltDefaults(cfg.FltTyp).0)))
              && (c.cache.None? ==>
                    && SidAmp == c.sideAmp && Cal.SVltEnds(c.svtOf(Cal.NoNRLevel(SmpSec, c.sine)), c.oracle, tryS, prvS)
                    && c.oracle(tryS) == c.oracle(prvS)
                    && cfg.FETSVt == Div(tryS + prvS + 1, 2) && Cal.LowS0 <= cfg.FETSVt <= Cal.HigS0
                    && Primed())
    {
    }

    /** dolbyb_start: the parameter checks in their order, the first that
      * fails giving the message (the filter type's source voltage and side
      * amplitude are set before the bit depth is checked); the sample
      * multiplier for the bit depth; SecondInit, whose error is returned;
      * then the calibration. */
    method Start(b: Built, maxDif: int, decAMX: real, thGain: real, c: Calibration)
      returns (err: Libdolbyb.Option<string>, ghost tryS: int, ghost prvS: int)
      requires b.Valid()
      requires SmpSec > 0 && c.cache.None? ==>
                 c.recal.Valid() && c.oracle(Cal.LowS0) < c.svtOf(Cal.NoNRLevel(SmpSec, c.sine)) < c.oracle(Cal.HigS0)
      modifies this`cfg, this`DCfilterPrvVal, this`DCfilterPrvAccVal, this`HPF1PrvIn, this`HPF1PrvOt
      modifies this`HPF2PrvIn, this`HPF2PrvOt, this`SetGatePrvResVal, this`SetGatePvrSmp1, this`SetGatePvrSmp2
      modifies this`SetGateOut, this`HPF2SetValsPot, this`HPF2SetValsAlp, this`HPF2SetValsFPt
      modifies this`SidAmp, this`SmpMux, this`DecAMX, this`ThGain, this`UpSmp, this`InUS
      modifies this`FindOutSmpMaxDif, this`FindOutSmpPrvIn, this`FindOutSmpPrvOt
      modifies this`CalibrateWrmSam, this`CalibrateEndSam, this`CalibrateSinTab, this`CalibrateSinTabMax
      modifies this`CalibrateSmpCnt
      ensures cfg.FltTyp == old(cfg.FltTyp)
      ensures var e := Libdolbyb.StartError(SmpSec, NumChn, cfg.FltTyp, BDepth);
              && (e.Some? ==> err == e && UpSmp == old(UpSmp) && InUS == old(InUS))
              && (e.Some? && e != Libdolbyb.Some(Libdolbyb.BDepthError) ==>
                    cfg == old(cfg) && SidAmp == old(SidAmp) && SmpMux == old(SmpMux))
              && (e == Libdolbyb.Some(Libdolbyb.BDepthError) ==>
                    && cfg == old(cfg).(FETSVt := Libdolbyb.FltDefaults(cfg.FltTyp).0)
                    && SidAmp == Libdolbyb.FltDefaults(cfg.FltTyp).1 && SmpMux == old(SmpMux))
              && (e.None? && UpSamp < 0 ==>
                    && err == Libdolbyb.Some(Libdolbyb.UpSampError)
                    && cfg == old(cfg).(FETSVt := Libdolbyb.FltDefaults(cfg.FltTyp).0)
                    && SidAmp == Libdolbyb.FltDefaults(cfg.FltTyp).1
                    && SmpMux == Libdolbyb.SmpMuxOf(Libdolbyb.DepthOf(BDepth).value)
                    && DecAMX == decAMX && ThGain == thGain && UpSmp == old(UpSmp) && InUS == old(InUS))
              && (e.None? && UpSamp >= 0 ==> err.None? && Launched(c, decAMX, thGain, tryS, prvS))
    {
      hide *;
      Libdolbyb.ErrorsDiffer();
      MaxChnlIs();
      tryS, prvS := 0, 0;
      if SmpSec <= 0 {
        return Libdolbyb.Some(Libdolbyb.SmpSecError), 0, 0;
      }
      if NumChn < 1 || NumChn > 2 {
        return Libdolbyb.Some(Libdolbyb.NumChnError), 0, 0;
      }
      if cfg.FltTyp < 1 || cfg.FltTyp > 4 {
        return Libdolbyb.Some(Libdolbyb.FltTypError), 0, 0;
      }
      var (svt, amp) := Libdolbyb.FltDefaults(cfg.FltTyp);
      cfg, SidAmp := cfg.(FETSVt := svt), amp;
      var d := Libdolbyb.DepthOf(BDepth);
      if d.None? {
        return Libdolbyb.Some(Libdolbyb.BDepthError), 0, 0;
      }
      SmpMux := Libdolbyb.SmpMuxOf(d.value);
      err, tryS, prvS := StartInit(b, maxDif, decAMX, thGain, c);
    }

    /** The end of dolbyb_start, once the parameters are accepted:
      * SecondInit, whose error is returned, then the calibration. */
    method StartInit(b: Built, maxDif: int, decAMX: real, thGain: real, c: Calibration)
      returns (err: Libdolbyb.Option<string>, ghost tryS: int, ghost prvS: int)
      requires b.Valid() && SmpSec > 0 && 1 <= cfg.FltTyp <= 4 && 1 <= NumChn <= MaxChnl
      requires Libdolbyb.DepthOf(BDepth).Some? && SmpMux == Libdolbyb.SmpMuxOf(Libdolbyb.DepthOf(BDepth).value)
      requires cfg.FETSVt == Libdolbyb.FltDefaults(cfg.FltTyp).0
      requires c.cache.None? ==>
                 c.recal.Valid() && c.oracle(Cal.LowS0) < c.svtOf(Cal.NoNRLevel(SmpSec, c.sine)) < c.oracle(Cal.HigS0)
      modifies this`cfg, this`DCfilterPrvVal, this`DCfilterPrvAccVal, this`HPF1PrvIn, this`HPF1PrvOt
      modifies this`HPF2PrvIn, this`HPF2PrvOt, this`SetGatePrvResVal, this`SetGatePvrSmp1, this`SetGatePvrSmp2
      modifies this`SetGateOut, this`HPF2SetValsPot, this`HPF2SetValsAlp, this`HPF2SetValsFPt
      modifies this`SidAmp, this`DecAMX, this`ThGain, this`UpSmp, this`InUS
      modifies this`FindOutSmpMaxDif, this`FindOutSmpPrvIn, this`FindOutSmpPrvOt
      modifies this`CalibrateWrmSam, this`CalibrateEndSam, this`CalibrateSinTab, this`CalibrateSinTabMax
      modifies this`CalibrateSmpCnt
      ensures cfg.FltTyp == old(cfg.FltTyp)
      ensures UpSamp < 0 ==>
                && err == Libdolbyb.Some(Libdolbyb.UpSampError) && cfg == old(cfg) && SidAmp == old(SidAmp)
                && DecAMX == decAMX && ThGain == thGain && UpSmp == old(UpSmp) && InUS == old(InUS)
      ensures UpSamp >= 0 ==> err.None? && Launched(c, decAMX, thGain, tryS, prvS)
    {
      hide *;
      tryS, prvS := 0, 0;
      ghost var cfg0 := cfg;
      err := SecondInit(b, maxDif, decAMX, thGain);
      if err.Some? {
        return;
      }
      PathsReadyIs(maxDif, cfg0);
      StartedIs();
      tryS, prvS := StartCalibrate(c, decAMX, thGain);
    }

    /** The calibration at the end of dolbyb_start, on a session that is
      * otherwise ready. */
    method StartCalibrate(c: Calibration, ghost decAMX: real, ghost thGain: real)
      returns (ghost tryS: int, ghost prvS: int)
      requires Started() && SmpSec > 0 && 1 <= cfg.FltTyp <= 4 && (AllHig || UpSmp >= 1)
      requires Libdolbyb.DepthOf(BDepth).Some? && SmpMux == Libdolbyb.SmpMuxOf(Libdolbyb.DepthOf(BDepth).value)
      requires UpSmp == (if UpSamp > 0 then UpSamp else Libdolbyb.Needed(SmpSec))
      requires InUS == (if AllHig then UpSmp else 1) && DecAMX == decAMX && ThGain == thGain
      requires Cleared() && Primed() && cfg.FETSVt == Libdolbyb.FltDefaults(cfg.FltTyp).0
      requires c.cache.None? ==>
                 c.recal.Valid() && c.oracle(Cal.LowS0) < c.svtOf(Cal.NoNRLevel(SmpSec, c.sine)) < c.oracle(Cal.HigS0)
      modifies this`cfg, this`DCfilterPrvVal, this`DCfilterPrvAccVal, this`HPF1PrvIn, this`HPF1PrvOt
      modifies this`HPF2PrvIn, this`HPF2PrvOt, this`SetGatePrvResVal, this`SetGatePvrSmp1, this`SetGatePvrSmp2
      modifies this`SetGateOut, this`HPF2SetValsPot, this`HPF2SetValsAlp, this`HPF2SetValsFPt
      modifies this`SidAmp, this`ThGain
      modifies this`CalibrateWrmSam, this`CalibrateEndSam, this`CalibrateSinTab, this`CalibrateSinTabMax
      modifies this`CalibrateSmpCnt
      ensures cfg.FltTyp == old(cfg.FltTyp)
      ensures Launched(c, decAMX, thGain, tryS, prvS)
    {
      hide *;
      StartedIs();
      PrimedIs();
      ghost var cfg1 := cfg;
      tryS, prvS := Calibrate(c);
      MeasuredIs(c, cfg1, tryS, prvS);
      cfg1.ValidWithSVt(cfg.FETSVt);
      if c.cache.Some? {
        assert cfg.(FETSVt := Libdolbyb.FltDefaults(cfg.FltTyp).0) == cfg1;
      }
      StartedIs();
      LaunchedIs(c, decAMX, thGain, tryS, prvS);
    }
  }
}
