# libdolbyb in Dafny

libdolbyb simulates the side path of a Dolby B noise-reduction circuit in
integer fixed point. It encodes a buffer of PCM frames by adding the side
path's output to each sample. It decodes by searching, sample by sample,
for the input whose encoding reproduces the received sample.

The side path for one sample and one channel runs these stages in order:

- an input gain;
- an optional fixed high-pass filter (HPF1);
- a sliding high-pass filter (HPF2) whose coefficient, potentiometer and
  attenuation come from tables indexed by the gate voltage of a FET;
- a two-stage envelope follower (SetGate) that produces that gate voltage
  for the next sample;
- a diode clip.

A DC filter corrects the running state of both high-pass filters. All
state lives in one session structure, `dolbyb_t`. `dolbyb_start` checks
the parameters, builds the tables and calibrates the side path.
`dolbyb_encode` and `dolbyb_decode` then process interleaved 8, 16 or
24-bit little-endian frames.

## Layout

There is one module per C file of the library.

- `CInt`: C's truncating `/` and `%`, plus arithmetic lemmas.
- `Params`: the constants of `Param.h` and the per-file headers. It also
  holds `Config`, the fields the initialisation sets and the per-sample
  routines only read.
- Value-level definitions of the per-sample arithmetic: `Mixers`,
  `DiodeClip`, `DCfilter`, `HPF1`, `HPF2SetVals`, `HPF2`, `SetGate`,
  `SidePath` and `FindOutSmp`. These are datatypes for the per-channel
  state, functions for the `check`, `commit` and `update` variants of
  each routine, and lemmas relating them.
- `Calibrate`: hcd64, the test-tone table and the source-voltage search.
- `Libdolbyb`: the start-up checks, the choice of the upsampling factor,
  the PCM sample formats, and what encode and decode compute for a
  buffer.
- `Session`: class `Dolbyb`, the session structure. Its fields have the
  structure's own names. Each method does to them what its C routine does
  in place, loops included. Its `ensures` ties the new state to the
  value-level definitions above.

The C library computes filter alphas, table entries, gains, clip limits,
the envelope detector's sample range, the calibration targets and the
sine table in floating point. These
values enter the model as parameters:

- `Session.Built` holds what the initialisation computes.
- `Session.Calibration` holds what the calibration measures or reads
  from its cache.

Everything after those values is integer arithmetic and is modelled
exactly, up to the exceptions listed under "## Left out".

Behaviour of the code worth knowing:

- FindOutSmp retries its first guess when the first trial did **not**
  clip (`FindOutSmp.c:146`), although the comment above the test
  (`FindOutSmp.c:145`) says "Try again if clipped".
- A sample exactly at the clip limit is not clipped and clears the flag
  (`DiodeClip.c:41-49`).
- HPF2 DC-corrects its state once per sample, after all its upsampled
  steps (`HPF2.c:143-149`).
- `dolbyb_start` has already set FETSVt and SidAmp when it rejects the
  bit depth (`libdolbyb.c:96-110`). `Session.Dolbyb.Start` states these
  effects of a failed start.
- The update path of HPF2 feeds the DC filter the output after the
  potentiometer is added (`HPF2PrvOtTot`). Committing feeds it the
  filtered value before that (`HPF2.c:145` against `HPF2.c:179`). So a
  decoder's check-then-update does not always leave HPF2 where encoding
  the same sample would. The model keeps this as written, and
  `HPF2.UpdateDiffersFromCommit` exhibits a state where the two differ.

## Model

| member | source | states |
|---|---|---|
| Mixers.Encode | libdolbyb/Mixers.h:4 | mixing with no side signal returns the input; the result is within 1 of the exact (6i+5s)/6 |
| Mixers.Decode | libdolbyb/Mixers.h:5 | decoding mixes with the negated side signal |
| Mixers.DecodeEncode | libdolbyb/Mixers.h:4-5 | unmixing a mixed sample with the same side signal returns the input to within 1 |
| Mixers.DecodeEncodeExact | libdolbyb/Mixers.h:4-5 | when the side signal is a multiple of 6 the round trip is exact |
| Mixers.EncodeMonotone | libdolbyb/Mixers.h:4-5 | both mixers are non-decreasing in the input sample |
| DiodeClip.Clip | libdolbyb/DiodeClip.c:36-51 | the output lies in [MinVal, MaxVal] and is the nearest such point to the input; the flag is set exactly when the input lies outside |
| DiodeClip.ClipIdempotent | libdolbyb/DiodeClip.c:36-51 | clipping a clipped value returns it unchanged and clears the flag |
| DiodeClip.ClipMonotone | libdolbyb/DiodeClip.c:41-50 | the clip preserves order |
| DCfilter.Step | libdolbyb/DCfilter.c:90-105 | the stored previous value is the output |
| DCfilter.StepBalances | libdolbyb/DCfilter.c:95-101 | the accumulated product equals the output step times AlpMux plus the new remainder, and the remainder stays below AlpMux in magnitude |
| DCfilter.NoDrift | libdolbyb/DCfilter.c:95-103 | the scaled state (PrvVal*AlpMux + PrvAccVal) advances by exactly (in - PrvVal)*Alp: truncation never accumulates drift |
| DCfilter.AtRest | libdolbyb/DCfilter.c:90-105 | a filter at rest fed its own value stays at rest |
| DCfilter.NoOvershoot | libdolbyb/DCfilter.c:90-105 | with 0 <= Alp <= AlpMux and no remainder, the output lies between the previous value and the input |
| HPF1.SetPrevious | libdolbyb/HPF1.c:82-95 | steps the channel's DC filter on the output and stores the input and the output less the DC filter's new value; the shadow slots are untouched |
| HPF1.Check | libdolbyb/HPF1.c:97-106 | the trial output is the filter's value; only the shadow slots change, and they record this input and output |
| HPF1.Commit | libdolbyb/HPF1.c:108-116 | gives the same output as a check and commits it through SetPrevious |
| HPF1.Update | libdolbyb/HPF1.c:118-122 | commits the shadow input and output through SetPrevious |
| HPF1.CheckThenUpdate | libdolbyb/HPF1.c:97-122 | a check followed by an update leaves the committed state a commit of the same input leaves |
| HPF1.CheckIgnoresShadow | libdolbyb/HPF1.c:72-80 | a check's result depends only on the committed state |
| HPF1.FilterAttenuates | libdolbyb/HPF1.c:72-80 | with 0 <= Alp <= AlpMux the output has the sign of prevOut+in-prevIn and is no larger in magnitude |
| HPF1.RestStaysAtRest | libdolbyb/HPF1.c:108-116 | a filter at rest fed its previous input outputs 0 and stays at rest |
| HPF2.Slide | libdolbyb/HPF2.c:126-138 | after at least one upsampled step the stored input is the sample |
| HPF2.SlideDecays | libdolbyb/HPF2.c:126-138 | with 0 <= Alp <= AlpMux, no step's output exceeds the first difference in magnitude, and the total is at most that times the number of steps |
| HPF2.PotBefore | libdolbyb/HPF2.c:119-122 | filter types 3 and 4 take no potentiometer tap before the filter |
| HPF2.Run | libdolbyb/HPF2.c:124-138 | the sliding filter is fed the input minus the potentiometer tap |
| HPF2.PotAfter | libdolbyb/HPF2.c:151-153 | filter types 1 and 2 keep the tap taken before the filter |
| HPF2.Check | libdolbyb/HPF2.c:57-108 | only shadow slots change, recording the run's last input and output and the total output; the output is the filtered value plus the tap, passed through HPF1's check for types 2 and 4, whose shadow slots then hold that check's input and output |
| HPF2.Commit | libdolbyb/HPF2.c:111-161 | gives the check's output; commits the run's input and its output less the DC filter's value for the filtered sample; HPF1 commits the tap for types 2 and 4 |
| HPF2.Update | libdolbyb/HPF2.c:164-184 | commits the shadow input, and the shadow output less the DC filter's value for the shadow total |
| HPF2.CheckThenUpdate | libdolbyb/HPF2.c:164-184 | check then update commits the same input as a commit, and the same state whenever the tap adds nothing |
| HPF2.CheckIgnoresShadow | libdolbyb/HPF2.c:57-108 | a check's output and HPF2 state depend only on committed state |
| HPF2.UpdateDiffersFromCommit | libdolbyb/HPF2.c:143-183 | for a concrete valid configuration, check then update stores a different previous output from a commit |
| HPF2.FilteredBounded | libdolbyb/HPF2.c:126-141 | the averaged, attenuated output is no larger than the first step's difference |
| HPF2.AverageBounded | libdolbyb/HPF2.c:140 | dividing a total of n bounded terms by n stays within the bound |
| HPF2SetVals.TabPos | libdolbyb/HPF2SetVals.c:76-81 | the position fits uint16 and is the quotient when that fits |
| HPF2SetVals.RaisingResLowersPos | libdolbyb/HPF2SetVals.c:88-89 | when the position is below the table size, raising the resolution by one never raises it |
| HPF2SetVals.LoweringResRaisesPos | libdolbyb/HPF2SetVals.c:90-91 | when the uint16 position is above the table size and the quotient at the lower resolution still fits 16 bits, lowering the resolution by one never lowers the position |
| HPF2SetVals.FirstEstimatePos | libdolbyb/HPF2SetVals.c:86-89 | a first estimate MaxVlt / 1000 of at least 1 puts the position of MaxVlt in [1000, 2000), so the first adjustment loop is never entered |
| HPF2SetVals.TableRes | libdolbyb/HPF2SetVals.c:83-92 | the resolution maps the maximum voltage exactly to the last table position |
| HPF2SetVals.LibraryTableRes | libdolbyb/HPF2SetVals.c:86-87 | for the library's 4 V pinch-off the starting resolution is already exact: 4000000 nV per step |
| HPF2SetVals.VltDif | libdolbyb/HPF2SetVals.c:250-255 | the voltage difference is clamped to [0, MaxVlt] and equals the raw difference inside |
| HPF2SetVals.Pos | libdolbyb/HPF2SetVals.c:258 | the table position is within the table |
| HPF2SetVals.NextPos | libdolbyb/HPF2SetVals.c:260-263 | the next position is one more, except at the last entry |
| HPF2SetVals.Offset | libdolbyb/HPF2SetVals.c:266-267 | the offset within a step is below the resolution and recomposes the voltage |
| HPF2SetVals.Interp | libdolbyb/HPF2SetVals.c:279-281 | the interpolated value lies between the two entries, and is the first at offset 0 |
| HPF2SetVals.Lookup | libdolbyb/HPF2SetVals.c:270-281 | a table lookup lies between the entries at the position and the next |
| HPF2SetVals.SetVals | libdolbyb/HPF2SetVals.c:243-285 | each of potentiometer, alpha and attenuation lies between the bracketing table entries, and equals the entry at a step boundary |
| HPF2SetVals.AlpIsFraction | libdolbyb/HPF2SetVals.c:243-285 | for shaped tables the alpha lies in [0, AlpMux] |
| HPF2SetVals.LookupMonotone | libdolbyb/HPF2SetVals.c:258-281 | in a non-decreasing table a higher voltage never looks up a lower value |
| HPF2SetVals.RunMax | libdolbyb/HPF2SetVals.c:176-183 | the running maximum (from 0) is non-negative and at least the last entry |
| HPF2SetVals.MakeAlpTable | libdolbyb/HPF2SetVals.c:159-184 | entry i is the running maximum of the raw alphas; the table is non-decreasing and never below the raw alpha |
| HPF2SetVals.RunMaxGrows | libdolbyb/HPF2SetVals.c:179-181 | the running maximum never decreases |
| HPF2SetVals.SortedUnchanged | libdolbyb/HPF2SetVals.c:179-181 | an already sorted non-negative table comes out unchanged |
| SetGate.ClampPos | libdolbyb/SetGate.c:313-314 | a position is clamped into the table range and kept inside it |
| SetGate.ClampSample | libdolbyb/SetGate.c:306-308 | the input is clamped to [MinSmp, MaxSmp] and kept inside |
| SetGate.Index1 | libdolbyb/SetGate.c:311-314 | the stage-1 index is within both stage-1 tables |
| SetGate.Index2 | libdolbyb/SetGate.c:328-331 | the stage-2 index is within the stage-2 table |
| SetGate.Stage2 | libdolbyb/SetGate.c:333-340 | stage 2 never falls more than the diode drop below stage 1 |
| SetGate.Step | libdolbyb/SetGate.c:301-344 | the new stage-1 and stage-2 values are the two filters' results, and the output is stage 2 |
| SetGate.Stage1Between | libdolbyb/SetGate.c:316-325 | for shaped tables stage 1 moves from its previous value toward the attenuated input without overshooting |
| SetGate.Stage2Between | libdolbyb/SetGate.c:333-340 | for shaped tables stage 2 moves toward stage 1 without overshooting |
| SetGate.ZeroAtRest | libdolbyb/SetGate.c:301-344 | a gate at rest fed 0 stays at rest with output 0 |
| SetGate.GetRes27 | libdolbyb/SetGate.c:85-116 | the search returns a resistance no higher than its start that is not too high, with the next one too high unless it is the start; for a monotone test every resistance above it up to the start is too high |
| SidePath.Clip | libdolbyb/SidePath.c:85 | the side path's output is within the diode clip limits |
| SidePath.ControlGate | libdolbyb/SidePath.c:106-109 | with the FET clamped the gate output is forced to 0; otherwise SetGate runs on the gain-scaled output |
| SidePath.Control | libdolbyb/SidePath.c:104-110 | the filters are untouched; the gate is stepped and the table values are recomputed from the new gate output |
| SidePath.FirstCheck | libdolbyb/SidePath.c:74-79 | types 1 and 3 check HPF1 on the gain-scaled input; types 2 and 4 pass it through |
| SidePath.Check | libdolbyb/SidePath.c:68-86 | committed state is untouched; the result is the clipped HPF2 check output, within the clip limits, with the clip flag |
| SidePath.Commit | libdolbyb/SidePath.c:89-114 | commits the filters, steps the gate on the unclipped output (or forces it to 0), and returns the clipped output |
| SidePath.Filters | libdolbyb/SidePath.c:94-102 | HPF1 (types 1 and 3) then HPF2 are committed in sequence |
| SidePath.Update | libdolbyb/SidePath.c:117-136 | updates HPF1 and HPF2 from their shadows, steps the gate on the last check's total, and returns that total clipped |
| SidePath.Prime | libdolbyb/SidePath.c:59-63 | a gate at rest is stepped on 0 and the table values are set for gate output 0 |
| SidePath.CommitMatchesCheck | libdolbyb/SidePath.c:68-114 | committing returns the same output and clip flag as checking |
| SidePath.CheckIgnoresShadow | libdolbyb/SidePath.c:68-86 | a check depends only on committed state |
| SidePath.CheckKeepsControl | libdolbyb/SidePath.c:68-86 | a check leaves the gate and the table values alone |
| SidePath.CheckThenUpdate | libdolbyb/SidePath.c:117-136 | an update after a check returns the check's output and flag, and leaves the gate, the table values, HPF1's committed state and HPF2's input as a commit of the same sample would |
| FindOutSmp.MaxDif | libdolbyb/FindOutSmp.c:44-46 | the tolerance is at least 10 and is the configured value when that is at least 10 |
| FindOutSmp.CheckRange | libdolbyb/FindOutSmp.c:61-66 | a guess strictly inside the bracket is kept; for a bracket of width 2 or more the result always lies strictly inside |
| FindOutSmp.CalcGuessMux | libdolbyb/FindOutSmp.c:68-91 | 1.0 (unused) when both deltas are positive or the result moved 20 times faster; otherwise the slope of the two trials |
| FindOutSmp.Round | libdolbyb/FindOutSmp.c:171 | rounding is within one half |
| FindOutSmp.Secant | libdolbyb/FindOutSmp.c:171 | the secant estimate solves (m-1)x = m*g0 - o0 |
| FindOutSmp.Int32 | libdolbyb/FindOutSmp.c:126 | the int32 slots hold the value modulo 2^32 in the signed range, unchanged when it fits |
| FindOutSmp.UpdateHigLow | libdolbyb/FindOutSmp.c:98-115 | a correct guess brackets itself tightly; a low guess becomes Low and High drops to just above the output; a high guess symmetrically |
| FindOutSmp.MoveHigLow | libdolbyb/FindOutSmp.c:98-115 | the in-place update of Hig and Low gives UpdateHigLow |
| FindOutSmp.Narrows | libdolbyb/FindOutSmp.c:98-115 | a guess strictly inside the bracket leaves a nested non-empty bracket, strictly narrower when the width is 3 or more |
| FindOutSmp.NarrowStaysNarrow | libdolbyb/FindOutSmp.c:179-192 | once the width is below 2 every further trial leaves it at most 2 |
| FindOutSmp.Test | libdolbyb/FindOutSmp.c:93-96 | a trial unmixes the received sample with the side path's check of the guess, and reports its clip flag |
| FindOutSmp.NextGuess | libdolbyb/FindOutSmp.c:164-182 | a secant guess is used only with two valid trials and fewer than two secants; the guess lies strictly inside a bracket of width 2 or more |
| FindOutSmp.Record | libdolbyb/FindOutSmp.c:185-190 | a clipped trial is discarded; otherwise the count of valid trials rises to at most 2 and the trial is stored (as int32) in the slot for that count |
| FindOutSmp.Advance | libdolbyb/FindOutSmp.c:182-192 | the trial's guess and output become current, the bracket is updated and its width becomes the difference; a secant counts |
| FindOutSmp.Iterate | libdolbyb/FindOutSmp.c:161-193 | one loop pass tests the next guess and updates bracket, width and secant count from that trial |
| FindOutSmp.ChooseGuess | libdolbyb/FindOutSmp.c:164-182 | the imperative guess choice gives NextGuess |
| FindOutSmp.Tried | libdolbyb/FindOutSmp.c:184-192 | the imperative bookkeeping after a trial gives Advance |
| FindOutSmp.IterateDecreases | libdolbyb/FindOutSmp.c:161-193 | while the width exceeds the tolerance each pass decreases the termination measure and keeps the bracket nested |
| FindOutSmp.Search | libdolbyb/FindOutSmp.c:161-193 | the loop always terminates with the width within tolerance; the final output is the trial of the final guess; the final bracket is nested in the first |
| FindOutSmp.SearchStep | libdolbyb/FindOutSmp.c:161-193 | one pass leaves the search's result unchanged and strictly decreases its measure |
| FindOutSmp.RunSearches | libdolbyb/FindOutSmp.c:117-196 | the whole routine is its loop started from the first trials |
| FindOutSmp.SearchStops | libdolbyb/FindOutSmp.c:161 | a state already within tolerance is returned as is |
| FindOutSmp.FirstTrial | libdolbyb/FindOutSmp.c:141-149 | the first guess extrapolates from the previous pair; when its trial does not clip it is retried with its own output |
| FindOutSmp.Start | libdolbyb/FindOutSmp.c:141-158 | the loop is entered with width above tolerance, no secants and at most one valid trial |
| FindOutSmp.Run | libdolbyb/FindOutSmp.c:117-196 | the result is the trial output of the last guess, the final bracket is within tolerance |
| Calibrate.Gcd | libdolbyb/Calibrate.c:48-54 | the result divides both arguments and every common divisor divides it |
| Calibrate.Hcd64 | libdolbyb/Calibrate.c:48-54 | the subtractive loop returns the greatest common divisor |
| Calibrate.SinTabLen | libdolbyb/Calibrate.c:62 | the table length divides the rate by gcd(rate, 5000), and that many samples hold a whole number of 5 kHz cycles |
| Calibrate.SinTabMax | libdolbyb/Calibrate.c:62 | computes SinTabLen with hcd64's loop |
| Calibrate.Tone | libdolbyb/Calibrate.c:65-68 | the table holds one sine value per sample index |
| Calibrate.ToneSum | libdolbyb/Calibrate.c:110-114 | a sum of absolute values is non-negative |
| Calibrate.ToneSumShift | libdolbyb/Calibrate.c:110-114 | reading past the table's end wraps around: one more period adds one table's sum |
| Calibrate.ToneSumCycles | libdolbyb/Calibrate.c:110-114 | k periods sum to k times one table |
| Calibrate.NoNRLevelIsTableMean | libdolbyb/Calibrate.c:103-120 | the five-second reference level is the mean absolute value of one table period |
| Calibrate.Interpolate | libdolbyb/Calibrate.c:268 | the linear estimate between two bracketing trials stays in [LowS, HigS) |
| Calibrate.SVltStep | libdolbyb/Calibrate.c:266-276 | one pass keeps the bracket's results straddling the target and only narrows the bracket |
| Calibrate.SVltStepBracket | libdolbyb/Calibrate.c:266-276 | the latest trial becomes the previous one; the high end is replaced only by a trial above the target, the low end only by one below it, and a result equal to the target replaces neither |
| Calibrate.SVltStepDecreases | libdolbyb/Calibrate.c:265-277 | a pass that runs decreases the loop's measure, so the search ends |
| Calibrate.SVltRun | libdolbyb/Calibrate.c:265-277 | the loop ends on two consecutive trials with equal results, inside a bracket nested in the one it started from |
| Calibrate.FindSVlt | libdolbyb/Calibrate.c:234-285 | for a target between the results at the two start voltages, the last two voltages tried are SVltRun's from the start bracket, have equal results, and the result is their rounded-up midpoint, in range |
| Libdolbyb.DepthOf | libdolbyb/libdolbyb.c:130-145 | only 8, 16 and 24 bits are accepted, each with its format constants |
| Libdolbyb.LittleEndian | libdolbyb/libdolbyb.c:152-158 | an n-byte little-endian value is below 256^n |
| Libdolbyb.Bytes | libdolbyb/libdolbyb.c:193-202 | writing a value gives n bytes |
| Libdolbyb.LittleEndianBytes | libdolbyb/libdolbyb.c:152-202 | reading back written bytes gives the value |
| Libdolbyb.BytesLittleEndian | libdolbyb/libdolbyb.c:152-202 | writing back read bytes gives the bytes |
| Libdolbyb.Unpack | libdolbyb/libdolbyb.c:151-167 | an input sample lies in the depth's signed range |
| Libdolbyb.Saturate | libdolbyb/libdolbyb.c:180-186 | the output is clamped to [MinVal, MaxVal] and kept inside it |
| Libdolbyb.Pack | libdolbyb/libdolbyb.c:187-202 | an output sample takes NumByt bytes |
| Libdolbyb.UnpackPack | libdolbyb/libdolbyb.c:151-202 | unpacking a packed in-range sample returns it |
| Libdolbyb.PackUnpack | libdolbyb/libdolbyb.c:151-202 | packing an unpacked sample returns the bytes |
| Libdolbyb.StartError | libdolbyb/libdolbyb.c:86-110 | start fails exactly when the rate, channel count, filter type or depth is invalid, with the first failing check's message |
| Libdolbyb.Needed | libdolbyb/libdolbyb.c:63-67 | the needed factor is the least positive one that takes the rate to 200 kHz |
| Libdolbyb.BelowNeeded | libdolbyb/libdolbyb.c:65-66 | every smaller positive factor falls short of 200 kHz |
| Libdolbyb.WrapStops | libdolbyb/libdolbyb.c:65-66 | after the int16 factor wraps to -32768 the 32-bit product ends the loop for rates up to 6 Hz |
| Libdolbyb.NoWrapBelowNeeded | libdolbyb/libdolbyb.c:65-66 | up to the needed factor the 32-bit product does not wrap |
| Libdolbyb.AutoUpSmpAsWritten | libdolbyb/libdolbyb.c:63-67 | the loop with an int16 factor and a uint32 product, exactly as written (UpSmpAsWritten) |
| Libdolbyb.UpSmpWraps | libdolbyb/libdolbyb.c:63-67 | at 6 Hz the needed factor is 33334 and the loop as written yields -32768 |
| Libdolbyb.AutoUpSmp | libdolbyb/libdolbyb.c:63-67 | the automatic factor is the least positive factor reaching 200 kHz |
| Libdolbyb.SmpMuxOf | libdolbyb/libdolbyb.c:104-107 | the sample multiplier is positive |
| Libdolbyb.EncodePassesZero | libdolbyb/libdolbyb.c:172-177 | unfolds the definition: no passes leave the channel and total as they were |
| Libdolbyb.EncodePassesStep | libdolbyb/libdolbyb.c:172-177 | unfolds the definition: each pass commits the side path and adds the mixed sample to the total |
| Libdolbyb.Average | libdolbyb/libdolbyb.c:178-186 | the averaged, rescaled output lies in the depth's range |
| Libdolbyb.EncodeSample | libdolbyb/libdolbyb.c:151-212 | encoding one sample writes NumByt bytes and changes only its own channel's state |
| Libdolbyb.EncodeFrames | libdolbyb/libdolbyb.c:147-214 | k samples write k*NumByt bytes; a mono stream leaves channel 2 alone |
| Libdolbyb.DecodePasses | libdolbyb/libdolbyb.c:270-275 | after a pass the stored previous input is the sample |
| Libdolbyb.DecodeStep | libdolbyb/libdolbyb.c:272-274 | a decode pass stores the sample and the search's result as the previous pair |
| Libdolbyb.DecodePassesZero | libdolbyb/libdolbyb.c:270-275 | unfolds the definition: no passes change nothing |
| Libdolbyb.DecodePassesStep | libdolbyb/libdolbyb.c:270-275 | unfolds the definition: each pass searches, then updates from the winning check |
| Libdolbyb.PassAddsSearchResult | libdolbyb/libdolbyb.c:273-274 | each pass adds exactly the search's converged output to the total: the update reproduces the winning trial |
| Libdolbyb.DecodeSample | libdolbyb/libdolbyb.c:249-309 | decoding one sample writes NumByt bytes, records the scaled input as previous input and leaves the other channel alone |
| Libdolbyb.DecodeFrames | libdolbyb/libdolbyb.c:245-311 | k samples write k*NumByt bytes; a mono stream leaves channel 2 alone |
| Libdolbyb.EncodeFramesZero | libdolbyb/libdolbyb.c:147 | unfolds the definition: zero samples write nothing |
| Libdolbyb.EncodeFramesStep | libdolbyb/libdolbyb.c:147-214 | unfolds the definition: sample k is encoded on channel k mod NumChn from the state the first k-1 samples left, and its bytes follow theirs |
| Libdolbyb.DecodeFramesZero | libdolbyb/libdolbyb.c:245 | unfolds the definition: zero samples write nothing |
| Libdolbyb.DecodeFramesStep | libdolbyb/libdolbyb.c:245-311 | unfolds the definition: sample k is decoded on channel k mod NumChn from the state the first k-1 samples left, and its bytes follow theirs |
| Session.Put | libdolbyb/libdolbyb.c:193-202 | the bytes are written at the position and nothing else in the buffer changes |
| Session.Dolbyb.constructor | libdolbyb/libdolbyb.c:34-47 | dolbyb_init: the structure is zeroed (every filter, gate, search and calibration slot, every multiplier, gain and limit, and no tables), then mono, 16 bits, filter type 4, -5 dB decode accuracy, 0 dB threshold gain and the default gate voltage |
| Session.Dolbyb.DiodeClipInit | libdolbyb/DiodeClip.c:27-34 | sets symmetric clip limits |
| Session.Dolbyb.DiodeClipStep | libdolbyb/DiodeClip.c:36-51 | returns the clipped sample and sets the session's clip flag as Clip says |
| Session.Dolbyb.DCfilterInit | libdolbyb/DCfilter.c:52-84 | sets the coefficient and zeroes all four slots |
| Session.Dolbyb.DCfilterStep | libdolbyb/DCfilter.c:90-105 | filter slot flt-1 takes one Step; the other slots are unchanged |
| Session.Dolbyb.HPF1Init | libdolbyb/HPF1.c:33-66 | sets the coefficient and zeroes both channels' committed state |
| Session.Dolbyb.HPF1SetPrevious | libdolbyb/HPF1.c:82-95 | the channel's HPF1 state becomes SetPrevious; the other channel and HPF2 are unchanged |
| Session.Dolbyb.HPF1Check | libdolbyb/HPF1.c:97-106 | the output and shadow state are HPF1.Check's; the other channel is unchanged |
| Session.Dolbyb.HPF1Commit | libdolbyb/HPF1.c:108-116 | the output and state are HPF1.Commit's |
| Session.Dolbyb.HPF1Update | libdolbyb/HPF1.c:118-122 | the state is HPF1.Update's |
| Session.Dolbyb.HPF2Init | libdolbyb/HPF2.c:36-50 | the upsampling count is 1 when upsampling everything, else UpSmp; committed state is zeroed |
| Session.Dolbyb.HPF2CheckFilter | libdolbyb/HPF2.c:64-94 | the loop computes the filtered value and stores the run's last input and output in the shadows |
| Session.Dolbyb.HPF2Check | libdolbyb/HPF2.c:57-108 | the output and state are HPF2.Check's |
| Session.Dolbyb.HPF2CheckPot | libdolbyb/HPF2.c:96-107 | the tap (recomputed for types 3 and 4, through HPF1's check for 2 and 4) is added and recorded as the total |
| Session.Dolbyb.HPF2Slide | libdolbyb/HPF2.c:126-138 | the upsampling loop leaves the state and total Slide gives |
| Session.Dolbyb.HPF2Filter | libdolbyb/HPF2.c:118-149 | returns the filtered value and the first tap and leaves HPF2 as its commit does |
| Session.Dolbyb.HPF2Settle | libdolbyb/HPF2.c:143-149 | the stored output is the given one less the channel's DC filter output |
| Session.Dolbyb.HPF2Commit | libdolbyb/HPF2.c:111-161 | the output and state are HPF2.Commit's |
| Session.Dolbyb.HPF2Update | libdolbyb/HPF2.c:164-184 | the state is HPF2.Update's |
| Session.Dolbyb.SetGateSetPrvRes | libdolbyb/SetGate.c:55-60 | the search restarts from GCR1 + 1000000 |
| Session.Dolbyb.SetGateGetRes27 | libdolbyb/SetGate.c:85-116 | the stored resistance is the result of the search started from the stored one |
| Session.Dolbyb.SetGateTab1Pos | libdolbyb/SetGate.c:197-207 | the entries for a position come from the resistance found from the previous one |
| Session.Dolbyb.SetGateMakeTab1 | libdolbyb/SetGate.c:273-276 | each stage-1 entry comes from a search that starts where the previous position's ended |
| Session.Dolbyb.SetGateMakeTab2 | libdolbyb/SetGate.c:277-279 | the stage-2 table holds one entry per position, the rest untouched |
| Session.Dolbyb.SetGateInit | libdolbyb/SetGate.c:224-299 | the multipliers are capped as the source caps them, the tables are built, the state is zeroed and the sample range keeps four times a sample times each multiplier within SetGateMax64 plus the double quotient's rounding margin |
| Session.Dolbyb.SetGateZero | libdolbyb/SetGate.c:281-285 | both channels' gate state is zeroed |
| Session.Dolbyb.SetGateRange | libdolbyb/SetGate.c:287-296 | the range is a quarter of the least of the three truncated double quotients (each quotient at least four times it, one below four times it plus 4), and four times it times each multiplier stays within SetGateMax64 plus the rounding margin |
| Session.Dolbyb.SetGateStage1 | libdolbyb/SetGate.c:305-325 | computes Stage1 |
| Session.Dolbyb.SetGateStage2 | libdolbyb/SetGate.c:327-340 | computes Stage2 |
| Session.Dolbyb.SetGateStep | libdolbyb/SetGate.c:301-344 | the channel's gate becomes SetGate.Step's; the other channel is unchanged |
| Session.Dolbyb.HPF2SetValsTableRes | libdolbyb/HPF2SetVals.c:83-92 | the maximum voltage is the pinch-off voltage and the resolution maps it exactly to the last position |
| Session.Dolbyb.HPF2SetValsInit | libdolbyb/HPF2SetVals.c:218-236 | sets the tables; the alpha table is the running maximum of the raw alphas, hence sorted |
| Session.Dolbyb.HPF2SetValsSet | libdolbyb/HPF2SetVals.c:243-285 | the channel's values are SetVals for its gate output; the other channel is unchanged |
| Session.Dolbyb.SidePathInit | libdolbyb/SidePath.c:35-65 | initialises every component, leaves the FET fields and filter type alone, and leaves both channels primed at rest |
| Session.Dolbyb.SidePathPrime | libdolbyb/SidePath.c:59-63 | both channels' gates step on 0 and their table values follow |
| Session.Dolbyb.SidePathInitComponents | libdolbyb/SidePath.c:41-57 | the component initialisations and gains leave a valid configuration with zeroed filters |
| Session.Dolbyb.SidePathCheckFilters | libdolbyb/SidePath.c:74-82 | the filter checks give FirstCheck then HPF2.Check |
| Session.Dolbyb.SidePathCheck | libdolbyb/SidePath.c:68-86 | the output, flag and state are SidePath.Check's; the other channel is unchanged |
| Session.Dolbyb.SidePathControl | libdolbyb/SidePath.c:104-110 | the gate and table values are Control's |
| Session.Dolbyb.SidePathFilters | libdolbyb/SidePath.c:94-102 | the filters are committed as Filters says |
| Session.Dolbyb.SidePathFinish | libdolbyb/SidePath.c:104-113 | controls the gate and returns the clipped output |
| Session.Dolbyb.SidePathStep | libdolbyb/SidePath.c:89-114 | the output, flag and state are SidePath.Commit's |
| Session.Dolbyb.SidePathUpdate | libdolbyb/SidePath.c:117-136 | the output, flag and state are SidePath.Update's |
| Session.Dolbyb.SidePathUpdateFilters | libdolbyb/SidePath.c:121-122 | both filters are updated from their shadows |
| Session.Dolbyb.FindOutSmpInit | libdolbyb/FindOutSmp.c:40-51 | the tolerance is MaxDif of the configured one and the previous pairs are zeroed |
| Session.Dolbyb.FindOutSmpTestGuess | libdolbyb/FindOutSmp.c:93-96 | a trial gives FindOutSmp.Test and keeps the committed state |
| Session.Dolbyb.FindOutSmpTrials | libdolbyb/FindOutSmp.c:140-149 | the first one or two trials give FirstTrial |
| Session.Dolbyb.FindOutSmpFirst | libdolbyb/FindOutSmp.c:117-158 | the state entering the loop is FindOutSmp.Start's |
| Session.Dolbyb.FindOutSmpLoop | libdolbyb/FindOutSmp.c:160-193 | the loop's final state is FindOutSmp.Search's, and the shadows hold the last trial's check |
| Session.Dolbyb.FindOutSmpRun | libdolbyb/FindOutSmp.c:117-196 | returns Run's output, leaves the last trial's check in the shadows, keeps the gate and tables and records the new previous pair |
| Session.Dolbyb.EncodePass | libdolbyb/libdolbyb.c:173-177 | one pass extends EncodePasses by one |
| Session.Dolbyb.EncodePassLoop | libdolbyb/libdolbyb.c:172-177 | the InUS passes give EncodePasses |
| Session.Dolbyb.EncodeSample | libdolbyb/libdolbyb.c:149-212 | the output bytes and the new channel state are Libdolbyb.EncodeSample's |
| Session.Dolbyb.DecodeSearch | libdolbyb/libdolbyb.c:273 | the search leaves the winning check in the channel and the pair it found as previous pair |
| Session.Dolbyb.DecodeCommit | libdolbyb/libdolbyb.c:274 | the update and mix give DecodeStep |
| Session.Dolbyb.DecodePass | libdolbyb/libdolbyb.c:271-275 | one pass extends DecodePasses by one |
| Session.Dolbyb.DecodePassLoop | libdolbyb/libdolbyb.c:270-275 | the InUS passes give DecodePasses |
| Session.Dolbyb.DecodeSample | libdolbyb/libdolbyb.c:247-309 | the output bytes and the new channel state are Libdolbyb.DecodeSample's |
| Session.Dolbyb.EncodeNext | libdolbyb/libdolbyb.c:148-213 | encoding sample k extends the encoded prefix by one sample |
| Session.Dolbyb.EncodeFrame | libdolbyb/libdolbyb.c:148-213 | one frame extends the encoded prefix by NumChn samples |
| Session.Dolbyb.EncodeAll | libdolbyb/libdolbyb.c:147-214 | the buffer's first nframes*NumChn samples are EncodeFrames of the input, the rest untouched |
| Session.Dolbyb.Encode | libdolbyb/libdolbyb.c:119-216 | an unknown depth is an error that changes nothing; otherwise the output and state are EncodeFrames' |
| Session.Dolbyb.DecodeNext | libdolbyb/libdolbyb.c:246-310 | decoding sample k extends the decoded prefix by one sample |
| Session.Dolbyb.DecodeFrame | libdolbyb/libdolbyb.c:246-310 | one frame extends the decoded prefix by NumChn samples |
| Session.Dolbyb.DecodeAll | libdolbyb/libdolbyb.c:245-311 | the buffer's first nframes*NumChn samples are DecodeFrames of the input, the rest untouched |
| Session.Dolbyb.Decode | libdolbyb/libdolbyb.c:218-313 | an unknown depth is an error that changes nothing; otherwise the output and state are DecodeFrames' |
| Session.Dolbyb.CalibrateMakeSinTab | libdolbyb/Calibrate.c:56-70 | the table has SinTabLen entries, one sine value each |
| Session.Dolbyb.CalibrateInit | libdolbyb/Calibrate.c:72-79 | warm-up and end sample counts are the seconds times the rate, and the table is built |
| Session.Dolbyb.CalibrateDeInit | libdolbyb/Calibrate.c:81-87 | the table is released |
| Session.Dolbyb.CalibrateNextTestToneSamp | libdolbyb/Calibrate.c:93-96 | returns the table entry at the counter modulo the length and advances the counter |
| Session.Dolbyb.CalibrateRunNoNRTest | libdolbyb/Calibrate.c:103-120 | the measured reference level is NoNRLevel, the mean absolute tone value; the table is released |
| Session.Dolbyb.CalibrateFindSideAmp | libdolbyb/Calibrate.c:149-223 | returns the measured amplitude, restores the gate voltage and leaves the FET unclamped |
| Session.Dolbyb.CalibrateFindSVlt | libdolbyb/Calibrate.c:234-285 | returns FindSVlt's voltage, the rounded-up midpoint of SVltRun's last two trials, with a 2 s warm-up and 5 s test, FET unclamped |
| Session.Dolbyb.Calibrate | libdolbyb/Calibrate.c:294-325 | a cache hit sets SidAmp and FETSVt and leaves every filter, gate and calibration field unchanged; otherwise the measured amplitude and the voltage search's result are stored, ThGain is restored and the side path is re-initialised (filters cleared, gates at rest, sliding filters set) |
| Session.Dolbyb.CalibrateMeasure | libdolbyb/Calibrate.c:304-321 | the measurement runs with ThGain 1, restores it, stores the amplitude and the voltage search's result, and re-initialises the side path: filters cleared, gates at rest, sliding filters set for the new voltage |
| Session.Dolbyb.CalibrateSearch | libdolbyb/Calibrate.c:308-317 | the reference level, amplitude search and voltage search give the stored amplitude and the voltage search's result for the reference target |
| Session.Dolbyb.SecondInit | libdolbyb/libdolbyb.c:49-77 | a negative UpSamp is an error that changes nothing else; otherwise UpSmp is UpSamp or the corrected factor of the Findings row, InUS follows AllHig, the side path is initialised with cleared filters and primed gates, and the search is reset |
| Session.Dolbyb.InitPaths | libdolbyb/libdolbyb.c:73-76 | the side path is initialised (filters cleared, gates at rest, sliding filters set) and the search reset, FET fields and filter type kept |
| Session.Dolbyb.Start | libdolbyb/libdolbyb.c:80-117 | each invalid parameter gives its message, in the source's order, with the source's partial effects (also on the UpSamp error); otherwise the session is started from cleared filters and primed gates, and calibrated |
| Session.Dolbyb.StartInit | libdolbyb/libdolbyb.c:112-114 | runs SecondInit, stops on its error, then calibrates |
| Session.Dolbyb.StartCalibrate | libdolbyb/libdolbyb.c:114 | calibration leaves the session started with the calibrated or cached amplitude and voltage |

## Left out

- Floating point. FETRes, the potentiometer, alpha and attenuation table builders, SetGateInRes1, SetGateInAtt1, SetGateInAlp1, SetGateRes2 and SetGateInAlp2, the alpha and multiplier computations of DCfilterInit and HPF1Init, the gains of SidePathInit, DiodeClipInit's limit, and SetGateInit's three quotients of SetGateMax64 by the multipliers (`SetGate.c:288-292`) all compute in double. Their results are parameters (`Session.Built`); the model checks their integer use, not their values.
- SetGateResTooHigh is a double-precision diode equation. It enters as the predicate `Built.SetGateTooHigh`, which is only required to be false at or below GCR1.
- SetGateInit's quotients `SetGateMax64 / mux` are double divisions truncated to int64. They enter as the function `Built.SetGateQuotOf`, which is only required to be non-negative and, times its divisor, to exceed SetGateMax64 by at most 999 (2^-53 of SetGateMax64, the most rounding to a double adds).
- Calibration measurements. CalibrateRunEncodeTest, CalibrateTestEncode, CalibrateTrySideAmp and CalibrateTrySVlt run the whole side path over seconds of test tone. The model replaces each encode run with a function from source voltage to result (`Calibration.oracle`). It does not model the side-path state those trial runs leave behind, which Calibrate re-initialises anyway, nor the last tried voltage they leave in FETSVt and the last tried amplitude in SidAmp, which Calibrate overwrites next.
- CalibrateFindSideAmp's search runs over doubles. Its result is a parameter (`Calibration.sideAmp`). The model keeps its effects on the session: the FET is unclamped and the gate voltage restored.
- The reference-level targets. `round(OffRes * 10^(dB/20))` is a parameter (`Calibration.svtOf`), as are the sine values of the test tone (`Calibration.sine`).
- The calibration cache. CalibrateCacheFind, CalibrateCacheSave and CalibrateCacheFileName read and append a file under HOME or TEMP. The lookup's result is a parameter (`Calibration.cache`); saving is not modelled.
- The dB conversions in SecondInit (DecAMX, ThGain) and the search tolerance computed from them are parameters.
- `Out of memory` returns from SetGateInit, HPF2SetValsInit and CalibrateMakeSinTab are not modelled. Tables are sequences and cannot fail to allocate.
- dolbyb_free only releases the tables. Sequences need no release, so it is not modelled.
- The big-endian byte-order branches (`WORDS_BIGENDIAN`) are not modelled. Only little-endian is.
- int64 overflow in the filters, mixers and totals is not modelled: integers are unbounded. SetGateInit's sample range is proved to keep four times a sample times each gate multiplier within SetGateMax64 plus 999, the most the double rounding of the quotient can add, which is below the int64 maximum.
- Session.Dolbyb.CalibrateInit: CalibrateWrmSam and CalibrateEndSam are int32 in the source (`dolbyb.h:112-113`), stored from uint32 products of seconds and SmpSec (`Calibrate.c:76-77`); here they are unbounded. dolbyb_start accepts any positive SmpSec, so the model matches the source only while the stored count fits, that is for 5·SmpSec ≤ 2^31 − 1 (SmpSec ≤ 429496729) after `CalibrateInit(Param, 0, 5)` and 7·SmpSec ≤ 2^31 − 1 (SmpSec ≤ 306783378) after `CalibrateInit(Param, 2, 5)`. Above that the source's counts wrap, typically to a negative value.
- Session.Dolbyb.CalibrateRunNoNRTest: the model's result is the table mean at every rate. Above 429496729 Hz the source's wrapped CalibrateEndSam can be negative, so its loop (`Calibrate.c:110`) is skipped and it returns 0, or positive but not 5 s, so it averages a different number of samples. CalibrateSmpCnt, also int32, is not wrapped either; below those rates it never passes CalibrateEndSam.
- Session.Dolbyb.CalibrateFindSVlt: it ensures CalibrateEndSam == 7·SmpSec and CalibrateWrmSam == 2·SmpSec, which the source's int32 stores hold only for SmpSec ≤ 306783378. The same applies to the encode runs behind `Calibration.oracle`, and to CalibrateFindSideAmp, whose `CalibrateInit(Param, 0, 5)` wraps above 429496729 Hz.
- FindOutSmp.Secant, FindOutSmp.CalcGuessMux: the secant step and its 0.95 to 1.05 test are computed in exact reals rather than doubles. Rounding uses `Round`, which is within one half of the real value.
- HPF2SetVals.TableRes: the function requires that the starting resolution MaxVlt / 1000 is exact, so that neither adjustment loop runs. `HPF2SetVals.LibraryTableRes` proves this for the library's 4 V pinch-off, the only MaxVlt the library computes. For other voltages the loops are not modelled. The first loop is never entered once the first estimate is at least 1 (`HPF2SetVals.FirstEstimatePos`). The second loop lowers the resolution while the uint16 position is above 1000. It stops with a wrong resolution once the quotient passes 65535 and the cast wraps to 1000 or less (MaxVlt = 65999 ends at TabRes 1, position 463). Otherwise it divides by zero when TabRes reaches 0 (MaxVlt = 1999).
- Session.Dolbyb.CalibrateFindSVlt: the voltage search assumes the target lies strictly between the results at the two start voltages. The source does not check this; outside it, its loop need not end.
- Session.Dolbyb.SecondInit: uses the corrected factor `Libdolbyb.AutoUpSmp` of the Findings row. At sample rates of 6 Hz or less with UpSamp 0, the model's UpSmp and InUS are the least positive factor reaching 200 kHz, where the source's int16 loop leaves -32768.
- Session.Dolbyb.Calibrate: on a cache hit the source returns before re-running SidePathInit, so the cached SidAmp reaches the side-path gain only at the next start, and the sliding filters stay set for the filter type's default source voltage rather than the cached one. The model states this as written (`Session.Dolbyb.Launched`).
- The program's wrapper (libdolbyb/dolbyb.c) and the sox effect (src/dolbyb.c) are not part of this model.

## Findings

| source | as written | input that shows it | evidently intended | confidence | as-written member | corrected member |
|---|---|---|---|---|---|---|
| libdolbyb/libdolbyb.c:63-67 | `UpSmp` is an int16 and is incremented while `UpSmp * SmpSec < 200000`; for rates below 7 Hz the needed factor exceeds 32767, so UpSmp wraps to -32768, the unsigned product passes 200000 and the loop stops with a negative factor | SmpSec = 6, UpSamp = 0: the needed factor is 33334, the loop returns -32768 | the least positive factor with UpSmp * SmpSec >= 200000 | not executed | Libdolbyb.AutoUpSmpAsWritten, Libdolbyb.UpSmpWraps | Libdolbyb.AutoUpSmp |
