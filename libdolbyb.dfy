// The library's entry points (libdolbyb.c) on values: the parameter checks
// of dolbyb_start, the choice of the upsampling factor, the little-endian
// PCM sample formats with saturation, and what dolbyb_encode and
// dolbyb_decode compute for a buffer of interleaved frames.

module Libdolbyb {
  import opened CInt
  import opened Params
  import Mixers
  import SidePath
  import FindOutSmp

  newtype byte = x: int | 0 <= x < 256

  datatype Option<T> = None | Some(value: T)

  /** The error messages dolbyb_start and the frame loops return. */
  const SmpSecError := "Did you forget to set dolbyb.SmpSec before calling dolbyb_start()?"
  const NumChnError := "libdolbyb can only process mono and stereo audio"
  const FltTypError := "dolbyb.FltTyp must be from 1 to 4"
  const BDepthError := "dolbyb.BDepth must be 8, 16 or 24"
  const UpSampError := "Upsampling cannot be negative"
  const DepthError := "BDepth is not 8/16/24. Did you set it before calling dolbyb_start()?"

  /** 256 to the n. */
  function Power256(n: nat): (r: nat)
    ensures r >= 1
  {
    if n == 0 then 1 else 256 * Power256(n - 1)
  }

  // ---------------------------------------------------------------------
  // Sample formats

  /** The constants the frame loops choose by bit depth: bytes per sample,
    * the largest raw value taken as positive, what is subtracted from a
    * larger raw value, the output range and the offset added on output. */
  datatype Depth = Depth(BDepth: int, NumByt: nat, MaxSamp: int, SubSamp: int,
                         MaxVal: int, MinVal: int, AddVal: int)

  /** What the constants amount to: 16 and 24 bit samples are two's
    * complement, 8 bit samples are offset binary (every raw byte is above
    * MaxSamp = -1, so 128 is always subtracted); the output range is the
    * full signed range of NumByt bytes. */
  predicate Sound(d: Depth)
  {
    var half := Power256(d.NumByt) / 2;
    && 1 <= d.NumByt <= 3 && d.BDepth == 8 * d.NumByt
    && d.MinVal == -half && d.MaxVal == half - 1
    && (d.NumByt == 1 ==> d.MaxSamp == -1 && d.SubSamp == half && d.AddVal == half)
    && (d.NumByt > 1 ==> d.MaxSamp == d.MaxVal && d.SubSamp == 2 * half && d.AddVal == 2 * half)
  }

  /** The bit-depth switch: 8, 16 and 24 bits are known, anything else is
    * an error. */
  function DepthOf(bDepth: int): (r: Option<Depth>)
    ensures r.Some? <==> bDepth == 8 || bDepth == 16 || bDepth == 24
    ensures r.Some? ==> Sound(r.value) && r.value.BDepth == bDepth
  {
    if bDepth == 8 then Some(Depth(8, 1, -1, 128, 127, -128, 128))
    else if bDepth == 16 then Some(Depth(16, 2, 32767, 65536, 32767, -32768, 65536))
    else if bDepth == 24 then Some(Depth(24, 3, 8388607, 16777216, 8388607, -8388608, 16777216))
    else None
  }

  /** The unsigned value of little-endian bytes. */
  function LittleEndian(bs: seq<byte>): (r: nat)
    ensures r < Power256(|bs|)
  {
    if |bs| == 0 then 0 else bs[0] as nat + 256 * LittleEndian(bs[1..])
  }

  /** The n low bytes of u, least significant first. */
  function Bytes(u: nat, n: nat): (r: seq<byte>)
    ensures |r| == n
  {
    if n == 0 then [] else [(u % 256) as byte] + Bytes(u / 256, n - 1)
  }

  /** Writing the bytes of a value that fits and reading them back gives
    * the value. */
  lemma {:induction false} LittleEndianBytes(u: nat, n: nat)
    requires u < Power256(n)
    ensures LittleEndian(Bytes(u, n)) == u
  {
    if n > 0 {
      LittleEndianBytes(u / 256, n - 1);
      assert Bytes(u, n)[1..] == Bytes(u / 256, n - 1);
    }
  }

  /** Reading bytes and writing the value back gives the same bytes. */
  lemma {:induction false} BytesLittleEndian(bs: seq<byte>)
    ensures Bytes(LittleEndian(bs), |bs|) == bs
  {
    if |bs| > 0 {
      BytesLittleEndian(bs[1..]);
      var u := LittleEndian(bs);
      assert u % 256 == bs[0] as int && u / 256 == LittleEndian(bs[1..]);
      assert [bs[0]] + bs[1..] == bs;
    }
  }

  /** An input sample: the little-endian raw value, less SubSamp when it
    * is above MaxSamp. It lies in the signed range of the depth. */
  function Unpack(d: Depth, bs: seq<byte>): (r: int)
    requires Sound(d) && |bs| == d.NumByt
    ensures d.MinVal <= r <= d.MaxVal
  {
    var raw := LittleEndian(bs);
    if raw > d.MaxSamp then raw - d.SubSamp else raw
  }

  /** The output range check: values beyond the depth's range are replaced
    * by its nearest end, values inside it are kept. */
  function Saturate(d: Depth, o: int): (r: int)
    ensures d.MinVal <= d.MaxVal ==> d.MinVal <= r <= d.MaxVal
    ensures d.MinVal <= o <= d.MaxVal ==> r == o
    ensures o > d.MaxVal ==> r == d.MaxVal
    ensures d.MinVal <= d.MaxVal && o < d.MinVal ==> r == d.MinVal
  {
    if o > d.MaxVal then d.MaxVal else if o < d.MinVal then d.MinVal else o
  }

  /** An output sample: AddVal is added to negative values (and to every
    * 8 bit value) and the low NumByt bytes are written, least significant
    * first. */
  function Pack(d: Depth, v: int): (r: seq<byte>)
    requires Sound(d) && d.MinVal <= v <= d.MaxVal
    ensures |r| == d.NumByt
  {
    var u := if v < 0 || d.BDepth == 8 then v + d.AddVal else v;
    Bytes(u, d.NumByt)
  }

  /** Packing any value in range and unpacking it gives the value back. */
  lemma UnpackPack(d: Depth, v: int)
    requires Sound(d) && d.MinVal <= v <= d.MaxVal
    ensures Unpack(d, Pack(d, v)) == v
  {
    var u := if v < 0 || d.BDepth == 8 then v + d.AddVal else v;
    LittleEndianBytes(u, d.NumByt);
  }

  /** Unpacking any bytes and packing the sample gives the bytes back: the
    * format loses nothing. */
  lemma PackUnpack(d: Depth, bs: seq<byte>)
    requires Sound(d) && |bs| == d.NumByt
    ensures Pack(d, Unpack(d, bs)) == bs
  {
    BytesLittleEndian(bs);
  }

  // ---------------------------------------------------------------------
  // dolbyb_start's checks and the upsampling factor

  /** dolbyb_start's parameter checks, in the order it makes them: the
    * first failing check gives the message; it succeeds exactly when the
    * sample rate is set, there are one or two channels, the filter type is
    * 1 to 4 and the bit depth is 8, 16 or 24. */
  function StartError(smpSec: int, numChn: int, fltTyp: int, bDepth: int): (r: Option<string>)
    ensures r.None? <==> smpSec > 0 && 1 <= numChn <= 2 && 1 <= fltTyp <= 4 && DepthOf(bDepth).Some?
    ensures smpSec <= 0 ==> r == Some(SmpSecError)
    ensures smpSec > 0 && (numChn < 1 || numChn > 2) ==> r == Some(NumChnError)
    ensures smpSec > 0 && 1 <= numChn <= 2 && (fltTyp < 1 || fltTyp > 4) ==> r == Some(FltTypError)
    ensures smpSec > 0 && 1 <= numChn <= 2 && 1 <= fltTyp <= 4 && DepthOf(bDepth).None? ==> r == Some(BDepthError)
  {
    if smpSec <= 0 then Some(SmpSecError)
    else if numChn < 1 || numChn > 2 then Some(NumChnError)
    else if fltTyp < 1 || fltTyp > 4 then Some(FltTypError)
    else if DepthOf(bDepth).None? then Some(BDepthError)
    else None
  }

  /** The messages are distinct, so a caller can tell the failures apart. */
  lemma ErrorsDiffer()
    ensures SmpSecError != BDepthError && NumChnError != BDepthError && FltTypError != BDepthError
  {
  }

  /** The automatic upsampling factor: the smallest positive factor that
    * takes the sample rate to 200 kHz or more. */
  function Needed(smpSec: int): (n: int)
    requires smpSec > 0
    ensures n >= 1 && n * smpSec >= 200000
    ensures n == 1 || (n - 1) * smpSec < 200000
  {
    if smpSec >= 200000 then 1
    else
      var q, rem := (199999 + smpSec) / smpSec, (199999 + smpSec) % smpSec;
      assert 199999 + smpSec == q * smpSec + rem;
      assert (q - 1) * smpSec == q * smpSec - smpSec;
      q
  }

  /** Below the needed factor the rate stays under 200 kHz. */
  lemma BelowNeeded(smpSec: int, n: int)
    requires smpSec > 0 && 1 <= n < Needed(smpSec)
    ensures n * smpSec < 200000
  {
    if n < Needed(smpSec) - 1 {
      MulStep(n, Needed(smpSec) - 1, smpSec);
    }
  }

  /** A C int16: the value wrapped into -32768 .. 32767. */
  function Int16(x: int): (r: int)
    ensures -0x8000 <= r < 0x8000
    ensures -0x8000 <= x < 0x8000 ==> r == x
  {
    (x + 0x8000) % 0x1_0000 - 0x8000
  }

  /** The loop's test: the int16 factor times the uint32 sample rate, in
    * unsigned 32-bit arithmetic. */
  function WrappedRate(n: int, smpSec: int): int
  {
    (n % 0x1_0000_0000) * smpSec % 0x1_0000_0000
  }

  /** The factor the automatic choice in SecondInit returns as written: the
    * needed factor while it fits in UpSmp's int16; for sample rates of 6 Hz
    * and below it does not, the increment wraps to -32768 and the loop
    * stops there. */
  function UpSmpAsWritten(smpSec: int): int
    requires smpSec > 0
  {
    if Needed(smpSec) <= 0x7FFF then Needed(smpSec) else -0x8000
  }

  /** The wrapped factor times a rate of at most 6 Hz is far above 200000
    * in unsigned 32-bit arithmetic. */
  lemma WrapStops(smpSec: int)
    requires 1 <= smpSec <= 6
    ensures WrappedRate(-0x8000, smpSec) >= 200000
  {
    if smpSec == 1 {
    } else if smpSec == 2 {
    } else if smpSec == 3 {
    } else if smpSec == 4 {
    } else if smpSec == 5 {
    } else {
    }
  }

  /** For a factor up to the needed one, the 32-bit product does not wrap. */
  lemma NoWrapBelowNeeded(n: int, smpSec: int)
    requires 0 < smpSec < 0x1_0000_0000 && 1 <= n <= Needed(smpSec) && n <= 0x7FFF
    ensures WrappedRate(n, smpSec) == n * smpSec
  {
    var p := n * smpSec;
    if n > 1 {
      BelowNeeded(smpSec, n - 1);
      MulStep(0, n - 1, smpSec);
      assert p == (n - 1) * smpSec + smpSec;
    }
    assert 0 < p < 0x1_0000_0000;
    assert n % 0x1_0000_0000 == n;
  }

  /** SecondInit's automatic choice as written: UpSmp counts up from 1 in
    * an int16 while the 32-bit product with the sample rate is below
    * 200000. */
  method AutoUpSmpAsWritten(smpSec: int) returns (n: int)
    requires 0 < smpSec < 0x1_0000_0000
    ensures n == UpSmpAsWritten(smpSec)
  {
    n := 1;
    while WrappedRate(n, smpSec) < 200000
      invariant (1 <= n <= Needed(smpSec) && n <= 0x7FFF) || (n == -0x8000 && Needed(smpSec) > 0x7FFF)
      invariant n == -0x8000 ==> WrappedRate(n, smpSec) >= 200000
      decreases if n >= 1 then 0x8000 - n else 0
    {
      NoWrapBelowNeeded(n, smpSec);
      n := Int16(n + 1);
      if n == -0x8000 {
        assert 0x7FFF * smpSec < 200000;
        WrapStops(smpSec);
      }
    }
    if n >= 1 {
      NoWrapBelowNeeded(n, smpSec);
      if n < Needed(smpSec) {
        BelowNeeded(smpSec, n);
      }
    }
  }

  /** The sample rates of 6 Hz and below that dolbyb_start accepts get a
    * negative upsampling factor: at 6 Hz the needed factor is 33334. */
  lemma UpSmpWraps()
    ensures Needed(6) == 33334 && UpSmpAsWritten(6) == -0x8000
  {
    assert 33334 * 6 >= 200000 && 33333 * 6 < 200000;
  }

  /** The automatic choice as intended: the smallest positive factor that
    * takes the sample rate to 200 kHz. */
  method AutoUpSmp(smpSec: int) returns (n: int)
    requires smpSec > 0
    ensures n >= 1 && n * smpSec >= 200000
    ensures n == Needed(smpSec)
  {
    n := 1;
    while n * smpSec < 200000
      invariant 1 <= n <= Needed(smpSec)
      decreases Needed(smpSec) - n
    {
      n := n + 1;
    }
    if n < Needed(smpSec) {
      BelowNeeded(smpSec, n);
    }
  }

  /** The sample multiplier dolbyb_start picks for a bit depth (the wider
    * the sample, the smaller the multiplier). */
  function SmpMuxOf(d: Depth): (m: int)
    ensures m > 0
  {
    if d.BDepth == 8 then SMux08 else if d.BDepth == 16 then SMux16 else SMux24
  }

  /** The FET source voltage and side amplitude dolbyb_start sets for a
    * filter type before calibration. */
  function FltDefaults(fltTyp: int): (int, real)
    requires 1 <= fltTyp <= 4
  {
    if fltTyp == 1 then (FETSVt1, SidAmp1)
    else if fltTyp == 2 then (FETSVt2, SidAmp2)
    else if fltTyp == 3 then (FETSVt3, SidAmp3)
    else (FETSVt4, SidAmp4)
  }

  // ---------------------------------------------------------------------
  // The frame loops

  /** What the frame loops read from the session: the side path's fixed
    * parameters, the sample format, the sample multiplier, the number of
    * passes per input sample (InUS), the channel count and the decoder's
    * search tolerance. */
  datatype Setup = Setup(c: Config, d: Depth, smpMux: int, inUS: int, numChn: int, maxDif: int)
  {
    predicate Valid()
    {
      c.Valid() && Sound(d) && smpMux > 0 && inUS >= 1 && 1 <= numChn <= MaxChnl
      && maxDif >= FindOutSmp.MinMaxDif
    }
  }

  /** The per-channel state the frame loops carry: each channel's side
    * path, the decoder's previous input and output per channel, and the
    * diode clipper's flag, which is shared. */
  datatype Coder = Coder(chans: seq<SidePath.Channel>, prvIn: seq<int>, prvOt: seq<int>, cliped: bool)
  {
    predicate Shaped()
    {
      |chans| == MaxChnl && |prvIn| == MaxChnl && |prvOt| == MaxChnl
    }
  }

  /** Output bytes and the state after them. */
  datatype Coded = Coded(out: seq<byte>, st: Coder)

  /** The state after n encoder passes of the same sample x on one channel,
    * and the total of the mixer's outputs. */
  datatype Passes = Passes(tot: int, ch: SidePath.Channel, cliped: bool)

  function EncodePasses(c: Config, ch: SidePath.Channel, cliped: bool, x: int, n: nat): (r: Passes)
    requires c.Valid()
  {
    if n == 0 then Passes(0, ch, cliped)
    else
      var p := EncodePasses(c, ch, cliped, x, n - 1);
      var s := SidePath.Commit(c, p.ch, x);
      Passes(p.tot + Mixers.Encode(x, s.out), s.ch, s.cliped)
  }

  /** No pass leaves the side path, the flag and the total as they were. */
  lemma EncodePassesZero(c: Config, ch: SidePath.Channel, cliped: bool, x: int)
    requires c.Valid()
    ensures EncodePasses(c, ch, cliped, x, 0) == Passes(0, ch, cliped)
  {
  }

  /** Pass n commits the side path once more from where pass n - 1 left it. */
  lemma EncodePassesStep(c: Config, ch: SidePath.Channel, cliped: bool, x: int, n: nat)
    requires c.Valid() && n >= 1
    ensures var p := EncodePasses(c, ch, cliped, x, n - 1);
            var s := SidePath.Commit(c, p.ch, x);
            EncodePasses(c, ch, cliped, x, n) == Passes(p.tot + Mixers.Encode(x, s.out), s.ch, s.cliped)
  {
  }

  /** The average of the passes, scaled back to the sample format and
    * saturated. */
  function Average(p: Setup, tot: int): (r: int)
    requires p.Valid()
    ensures p.d.MinVal <= r <= p.d.MaxVal
  {
    Saturate(p.d, Div(Div(tot, p.inUS), p.smpMux))
  }

  /** The average spelled out. */
  lemma AverageParts(p: Setup, tot: int)
    requires p.Valid()
    ensures Average(p, tot) == Saturate(p.d, Div(Div(tot, p.inUS), p.smpMux))
  {
  }

  /** One input sample of the encoder on channel chn (counted from 0): the
    * sample times SmpMux through InUS committed side-path passes, mixed,
    * averaged and packed. Only that channel's side path and the flag
    * change. */
  function EncodeSample(p: Setup, st: Coder, chn: int, bs: seq<byte>): (r: Coded)
    requires p.Valid() && st.Shaped() && 0 <= chn < MaxChnl && |bs| == p.d.NumByt
    ensures |r.out| == p.d.NumByt && r.st.Shaped()
    ensures r.st.prvIn == st.prvIn && r.st.prvOt == st.prvOt
    ensures forall j :: 0 <= j < MaxChnl && j != chn ==> r.st.chans[j] == st.chans[j]
  {
    var x := Unpack(p.d, bs) * p.smpMux;
    var e := EncodePasses(p.c, st.chans[chn], st.cliped, x, p.inUS);
    Coded(Pack(p.d, Average(p, e.tot)), st.(chans := st.chans[chn := e.ch], cliped := e.cliped))
  }

  /** An encoder sample spelled out. */
  lemma EncodeSampleParts(p: Setup, st: Coder, chn: int, bs: seq<byte>)
    requires p.Valid() && st.Shaped() && 0 <= chn < MaxChnl && |bs| == p.d.NumByt
    ensures var e := EncodePasses(p.c, st.chans[chn], st.cliped, Unpack(p.d, bs) * p.smpMux, p.inUS);
            EncodeSample(p, st, chn, bs) == Coded(Pack(p.d, Average(p, e.tot)), st.(chans := st.chans[chn := e.ch], cliped := e.cliped))
  {
  }

  /** The first k samples of an interleaved buffer through the encoder:
    * sample i is channel i mod NumChn, in bytes i * NumByt onwards. */
  function EncodeFrames(p: Setup, st: Coder, inp: seq<byte>, k: nat): (r: Coded)
    requires p.Valid() && st.Shaped() && k * p.d.NumByt <= |inp|
    ensures |r.out| == k * p.d.NumByt && r.st.Shaped()
    ensures r.st.prvIn == st.prvIn && r.st.prvOt == st.prvOt
    ensures p.numChn == 1 ==> r.st.chans[1] == st.chans[1]
  {
    if k == 0 then Coded([], st)
    else
      var n := p.d.NumByt;
      assert (k - 1) * n + n == k * n;
      var prev := EncodeFrames(p, st, inp, k - 1);
      var e := EncodeSample(p, prev.st, (k - 1) % p.numChn, inp[(k - 1) * n .. k * n]);
      Coded(prev.out + e.out, e.st)
  }

  /** The decoder's passes: each runs the output search on the channel,
    * which leaves the channel as the check of its last guess left it and
    * records the input and the output found; the update then commits that
    * check and the unmixed result is added up. */
  datatype DecPasses = DecPasses(tot: int, ch: SidePath.Channel, cliped: bool, prvIn: int, prvOt: int)

  function DecodePasses(p: Setup, ch: SidePath.Channel, cliped: bool, prvIn: int, prvOt: int, x: int, n: nat): (r: DecPasses)
    requires p.Valid()
    ensures n > 0 ==> r.prvIn == x
  {
    if n == 0 then DecPasses(0, ch, cliped, prvIn, prvOt)
    else DecodeStep(p, DecodePasses(p, ch, cliped, prvIn, prvOt, x, n - 1), x)
  }

  /** The search of a decoder pass from the state q: FindOutSmp on the
    * channel, the sample and the previous input and output. */
  function PassSearch(p: Setup, q: DecPasses, x: int): FindOutSmp.Loop
    requires p.Valid()
  {
    FindOutSmp.Run(p.c, q.ch, x, q.prvIn, q.prvOt, p.maxDif)
  }

  /** The check of the guess that search settled on. */
  function PassCheck(p: Setup, q: DecPasses, x: int): SidePath.SideStep
    requires p.Valid()
  {
    SidePath.Check(p.c, q.ch, PassSearch(p, q, x).NxtGus)
  }

  /** One decoder pass from the state q: the channel is committed from the
    * check of the search's last guess, the output of that update, unmixed
    * from x, is added to the total, and x and the search's output become
    * the previous input and output. */
  function DecodeStep(p: Setup, q: DecPasses, x: int): (r: DecPasses)
    requires p.Valid()
    ensures r.prvIn == x && r.prvOt == PassSearch(p, q, x).NxtOut
  {
    var u := SidePath.Update(p.c, PassCheck(p, q, x).ch);
    DecPasses(q.tot + Mixers.Decode(x, u.out), u.ch, u.cliped, x, PassSearch(p, q, x).NxtOut)
  }

  /** No pass leaves the decoder's state as it was. */
  lemma DecodePassesZero(p: Setup, ch: SidePath.Channel, cliped: bool, prvIn: int, prvOt: int, x: int)
    requires p.Valid()
    ensures DecodePasses(p, ch, cliped, prvIn, prvOt, x, 0) == DecPasses(0, ch, cliped, prvIn, prvOt)
  {
  }

  /** Pass n is one more decoder pass from where pass n - 1 left the
    * state. */
  lemma DecodePassesStep(p: Setup, ch: SidePath.Channel, cliped: bool, prvIn: int, prvOt: int, x: int, n: nat)
    requires p.Valid() && n >= 1
    ensures DecodePasses(p, ch, cliped, prvIn, prvOt, x, n) == DecodeStep(p, DecodePasses(p, ch, cliped, prvIn, prvOt, x, n - 1), x)
  {
  }

  /** What a valid setup gives the side path and the search. */
  lemma SetupParts(p: Setup)
    requires p.Valid()
    ensures p.c.Valid() && p.maxDif >= FindOutSmp.MinMaxDif
  {
  }

  /** A decoder pass's search and check spelled out. */
  lemma PassParts(p: Setup, q: DecPasses, x: int)
    requires p.Valid()
    ensures PassSearch(p, q, x) == FindOutSmp.Run(p.c, q.ch, x, q.prvIn, q.prvOt, p.maxDif)
    ensures PassCheck(p, q, x) == SidePath.Check(p.c, q.ch, PassSearch(p, q, x).NxtGus)
  {
  }

  /** A decoder pass spelled out: the update committing the check of the
    * search's last guess. */
  lemma DecodeStepParts(p: Setup, q: DecPasses, x: int)
    requires p.Valid()
    ensures var u := SidePath.Update(p.c, PassCheck(p, q, x).ch);
            DecodeStep(p, q, x) == DecPasses(q.tot + Mixers.Decode(x, u.out), u.ch, u.cliped, x, PassSearch(p, q, x).NxtOut)
  {
  }

  /** Each decoder pass adds exactly the output the search settled on: the
    * update returns what the check of the last guess returned, and the
    * search's output is that check, unmixed. */
  lemma PassAddsSearchResult(p: Setup, ch: SidePath.Channel, cliped: bool, prvIn: int, prvOt: int, x: int, n: nat)
    requires p.Valid() && n > 0
    ensures var q := DecodePasses(p, ch, cliped, prvIn, prvOt, x, n - 1);
            var r := DecodePasses(p, ch, cliped, prvIn, prvOt, x, n);
            r.tot == q.tot + r.prvOt
  {
    var q := DecodePasses(p, ch, cliped, prvIn, prvOt, x, n - 1);
    var s := FindOutSmp.Run(p.c, q.ch, x, q.prvIn, q.prvOt, p.maxDif);
    SidePath.CheckThenUpdate(p.c, q.ch, s.NxtGus);
  }

  /** One input sample of the decoder on channel chn. Only that channel's
    * side path, its previous input and output, and the flag change; the
    * previous input becomes the scaled sample. */
  function DecodeSample(p: Setup, st: Coder, chn: int, bs: seq<byte>): (r: Coded)
    requires p.Valid() && st.Shaped() && 0 <= chn < MaxChnl && |bs| == p.d.NumByt
    ensures |r.out| == p.d.NumByt && r.st.Shaped()
    ensures r.st.prvIn == st.prvIn[chn := Unpack(p.d, bs) * p.smpMux]
    ensures forall j :: 0 <= j < MaxChnl && j != chn ==>
              r.st.chans[j] == st.chans[j] && r.st.prvOt[j] == st.prvOt[j]
  {
    var x := Unpack(p.d, bs) * p.smpMux;
    var q := DecodePasses(p, st.chans[chn], st.cliped, st.prvIn[chn], st.prvOt[chn], x, p.inUS);
    Coded(Pack(p.d, Average(p, q.tot)),
          Coder(st.chans[chn := q.ch], st.prvIn[chn := q.prvIn], st.prvOt[chn := q.prvOt], q.cliped))
  }

  /** A decoder sample spelled out. */
  lemma DecodeSampleParts(p: Setup, st: Coder, chn: int, bs: seq<byte>)
    requires p.Valid() && st.Shaped() && 0 <= chn < MaxChnl && |bs| == p.d.NumByt
    ensures var q := DecodePasses(p, st.chans[chn], st.cliped, st.prvIn[chn], st.prvOt[chn], Unpack(p.d, bs) * p.smpMux, p.inUS);
            DecodeSample(p, st, chn, bs)
            == Coded(Pack(p.d, Average(p, q.tot)), Coder(st.chans[chn := q.ch], st.prvIn[chn := q.prvIn], st.prvOt[chn := q.prvOt], q.cliped))
  {
  }

  /** The first k samples of an interleaved buffer through the decoder. */
  function DecodeFrames(p: Setup, st: Coder, inp: seq<byte>, k: nat): (r: Coded)
    requires p.Valid() && st.Shaped() && k * p.d.NumByt <= |inp|
    ensures |r.out| == k * p.d.NumByt && r.st.Shaped()
    ensures p.numChn == 1 ==> r.st.chans[1] == st.chans[1] && r.st.prvIn[1] == st.prvIn[1]
                              && r.st.prvOt[1] == st.prvOt[1]
  {
    if k == 0 then Coded([], st)
    else
      var n := p.d.NumByt;
      assert (k - 1) * n + n == k * n;
      var prev := DecodeFrames(p, st, inp, k - 1);
      var e := DecodeSample(p, prev.st, (k - 1) % p.numChn, inp[(k - 1) * n .. k * n]);
      Coded(prev.out + e.out, e.st)
  }

  /** No samples: nothing written, nothing changed. */
  lemma EncodeFramesZero(p: Setup, st: Coder, inp: seq<byte>)
    requires p.Valid() && st.Shaped()
    ensures EncodeFrames(p, st, inp, 0) == Coded([], st)
  {
  }

  /** Sample k - 1 appended to the first k - 1. */
  lemma EncodeFramesStep(p: Setup, st: Coder, inp: seq<byte>, k: nat)
    requires p.Valid() && st.Shaped() && k >= 1 && k * p.d.NumByt <= |inp|
    ensures (k - 1) * p.d.NumByt + p.d.NumByt == k * p.d.NumByt
    ensures var prev := EncodeFrames(p, st, inp, k - 1);
            var e := EncodeSample(p, prev.st, (k - 1) % p.numChn, inp[(k - 1) * p.d.NumByt .. k * p.d.NumByt]);
            EncodeFrames(p, st, inp, k) == Coded(prev.out + e.out, e.st)
  {
  }

  lemma DecodeFramesZero(p: Setup, st: Coder, inp: seq<byte>)
    requires p.Valid() && st.Shaped()
    ensures DecodeFrames(p, st, inp, 0) == Coded([], st)
  {
  }

  lemma DecodeFramesStep(p: Setup, st: Coder, inp: seq<byte>, k: nat)
    requires p.Valid() && st.Shaped() && k >= 1 && k * p.d.NumByt <= |inp|
    ensures (k - 1) * p.d.NumByt + p.d.NumByt == k * p.d.NumByt
    ensures var prev := DecodeFrames(p, st, inp, k - 1);
            var e := DecodeSample(p, prev.st, (k - 1) % p.numChn, inp[(k - 1) * p.d.NumByt .. k * p.d.NumByt]);
            DecodeFrames(p, st, inp, k) == Coded(prev.out + e.out, e.st)
  {
  }

  /** One more sample through the encoder: if a buffer holds the output of
    * the first k samples followed by the rest of its first contents o0,
    * then writing the output of sample k just after them leaves the
    * output of the first k + 1 samples followed by the rest of o0. */
  lemma EncodeFramesNext(p: Setup, st0: Coder, inp: seq<byte>, o0: seq<byte>, k: nat, lo: nat, chn: nat,
                         r: Coded, bs: seq<byte>, e: Coded, full: seq<byte>, full': seq<byte>)
    requires p.Valid() && st0.Shaped() && chn < MaxChnl && k % p.numChn == chn && lo == k * p.d.NumByt
    requires lo + p.d.NumByt <= |inp| && lo + p.d.NumByt <= |o0| && bs == inp[lo .. lo + p.d.NumByt]
    requires r == EncodeFrames(p, st0, inp, k) && e == EncodeSample(p, r.st, chn, bs)
    requires full == r.out + o0[lo..] && full' == full[..lo] + e.out + full[lo + |e.out|..]
    ensures (k + 1) * p.d.NumByt == lo + p.d.NumByt
    ensures var r' := EncodeFrames(p, st0, inp, k + 1);
            e.st == r'.st && full' == r'.out + o0[lo + p.d.NumByt..]
  {
    hide *;
    var n := p.d.NumByt;
    MulNext(k, n);
    EncodeFramesStep(p, st0, inp, k + 1);
    assert full[..lo] == r.out;
    assert full[lo + n..] == o0[lo + n..];
  }

  /** One more sample through the decoder: if a buffer holds the output of
    * the first k samples followed by the rest of its first contents o0,
    * then writing the output of sample k just after them leaves the
    * output of the first k + 1 samples followed by the rest of o0. */
  lemma DecodeFramesNext(p: Setup, st0: Coder, inp: seq<byte>, o0: seq<byte>, k: nat, lo: nat, chn: nat,
                         r: Coded, bs: seq<byte>, e: Coded, full: seq<byte>, full': seq<byte>)
    requires p.Valid() && st0.Shaped() && chn < MaxChnl && k % p.numChn == chn && lo == k * p.d.NumByt
    requires lo + p.d.NumByt <= |inp| && lo + p.d.NumByt <= |o0| && bs == inp[lo .. lo + p.d.NumByt]
    requires r == DecodeFrames(p, st0, inp, k) && e == DecodeSample(p, r.st, chn, bs)
    requires full == r.out + o0[lo..] && full' == full[..lo] + e.out + full[lo + |e.out|..]
    ensures (k + 1) * p.d.NumByt == lo + p.d.NumByt
    ensures var r' := DecodeFrames(p, st0, inp, k + 1);
            e.st == r'.st && full' == r'.out + o0[lo + p.d.NumByt..]
  {
    hide *;
    var n := p.d.NumByt;
    MulNext(k, n);
    DecodeFramesStep(p, st0, inp, k + 1);
    assert full[..lo] == r.out;
    assert full[lo + n..] == o0[lo + n..];
  }

  /** The bytes of k + 1 samples of n bytes each. */
  lemma MulNext(k: nat, n: int)
    ensures (k + 1) * n == k * n + n
  {
  }

  /** Sample j of frame f of an interleaved buffer with c channels is
    * sample f * c + j of the buffer, and it belongs to channel j. */
  lemma ChannelOf(f: nat, c: int, j: int)
    requires 0 <= j < c
    ensures (f * c + j) % c == j
  {
    var a := f * c + j;
    var q, r := a / c, a % c;
    assert a == q * c + r;
    if q > f {
      MulStep(f, q, c);
    } else if q < f {
      MulStep(q, f, c);
    }
  }

  /** Sample j (1 .. c) of frame f < nf ends within nf frames of c
    * samples of n bytes. */
  lemma SampleFits(f: nat, c: int, j: int, nf: nat, n: nat)
    requires f < nf && 1 <= j <= c
    ensures (f * c + j) * n <= nf * c * n
  {
    MulStep(f, nf, c);
    assert f * c + j <= nf * c;
    MulMono(n, f * c + j, nf * c);
    assert (f * c + j) * n == n * (f * c + j) && nf * c * n == n * (nf * c);
  }
}
