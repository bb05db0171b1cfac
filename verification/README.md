# Reverb module model

A Dafny model of `ReverbModule`, the reverberation effect of a Unity
software synthesiser. It is a sample provider that pulls blocks from an
upstream source. It owns eight low-pass feedback comb filters and four
allpass filters in series, wired through three averaging mixers.

The model covers four things:

- the delay-length arithmetic done at construction;
- the lockstep `RoomSize` and `Damping` properties, plus `DryWet` and `Enabled`;
- the fixed wiring of the filter network;
- the block `Read`: a bypass when disabled, and a dry/wet blend when enabled.

The comb, allpass, mixer and dummy-provider classes belong to an audio
library that is not part of this model. Their per-block behaviour enters as
uninterpreted functions, gathered in `FilterNetwork.Kernels`. Samples are
`real`.

Files:

- `delay_lengths.dfy` (`DelayLengths`): reference lengths and C# truncating
  division.
- `filter_network.dfy` (`FilterNetwork`): filters, kernels, wiring table and
  the wet path.
- `reverb_module.dfy` (`ReverbModule`): module state, constructor,
  properties and `Read`.

Modelling decisions:

- **Delay lengths.** They are `ref * SampleRate / 44100` in C# `int`
  arithmetic. The division truncates toward zero. There is no rounding and
  no minimum of one sample, so a low enough rate gives a zero-length delay
  line.
- **Wiring.** The comment above the constructor says combs "0-4" feed mixer
  0 and "5-7" feed mixer 1. The code wires combs 0–3 and 4–7. This model
  follows the code; see `FilterNetwork.MixerGroupsPartitionCombs`.
- **Upstream read.** Its effect is given as `Pull`: the buffer as the
  upstream left it, plus the count it reported. `Read` ignores that count.
  A short upstream read is not propagated. All `sampleCount` samples are
  blended, and `Read` returns either `sampleCount` (bypass) or the final
  allpass's count.
- **Getters.** `RoomSize` and `Damping` read comb 0, not a separately
  stored value. The setters keep all eight combs in lockstep
  (`ReverbModule.Lockstep`, part of `ReverbModule.Valid`).
- **Comb input (assumption).** The model assumes every comb reads the same
  dry block from the input copy. That holds only if the unseen dummy
  provider's read does not consume the block.
- **Allpass output (assumption).** The model assumes the final allpass
  writes its output samples from `offset` on, up to `sampleCount` of them,
  and writes nothing else. A window position past the end of its output is
  assumed to keep the dry sample already there (`ReverbModule.WetSample`).
  The source does not show this. It matters only when the wet chain returns
  fewer than `sampleCount` samples.
- **Index errors.** When enabled, a window that leaves the buffer makes the
  blend loop index out of range. That is the `IndexOutOfRange` error.

## Model

| member | source | states |
|---|---|---|
| DelayLengths.TruncDiv | Assets/Synthesiser/Module/ReverbModule.cs:55 | C# integer division: the quotient is pinned between `n` and `n ± d`, rounding toward zero for both signs |
| DelayLengths.ScaledLength | Assets/Synthesiser/Module/ReverbModule.cs:55-62 | the delay length `n` satisfies `n*44100 <= ref*rate < n*44100 + 44100` (truncation toward zero for negative products) |
| DelayLengths.CombLengths | Assets/Synthesiser/Module/ReverbModule.cs:53-63 | the eight comb lengths are the scaled reference lengths 1557, 1617, 1491, 1422, 1277, 1356, 1188, 1116, in order |
| DelayLengths.AllpassLengths | Assets/Synthesiser/Module/ReverbModule.cs:78-81 | the four allpass lengths are the scaled reference lengths 225, 556, 441, 341, in chain order |
| DelayLengths.ScaledLengthAtReferenceRate | Assets/Synthesiser/Module/ReverbModule.cs:55 | at 44100 Hz every delay length equals its reference length |
| DelayLengths.ScaledLengthAtHalfRate | Assets/Synthesiser/Module/ReverbModule.cs:55 | at 22050 Hz every length is the floor of half its reference (truncation, not rounding) |
| DelayLengths.TruncDivMonotonic | Assets/Synthesiser/Module/ReverbModule.cs:55 | truncating division by a positive divisor never decreases as a non-negative dividend grows |
| DelayLengths.ScaledLengthMonotonic | Assets/Synthesiser/Module/ReverbModule.cs:55 | delay lengths are non-negative and never decrease as the sample rate grows |
| DelayLengths.LengthsAtReferenceRate | Assets/Synthesiser/Module/ReverbModule.cs:55-62 | at 44100 Hz the comb lengths are exactly 1557 … 1116 and the allpass lengths exactly 225, 556, 441, 341 |
| DelayLengths.LengthsAtHalfRate | Assets/Synthesiser/Module/ReverbModule.cs:78-81 | at 22050 Hz the lengths are 778, 808, 745, 711, 638, 678, 594, 558 and 112, 278, 220, 170 (1557 gives 778, not 779) |
| DelayLengths.ZeroLengthAtLowRate | Assets/Synthesiser/Module/ReverbModule.cs:78 | no minimum of one is enforced: the first allpass gets length 0 at 195 Hz and 1 at 196 Hz |
| DelayLengths.NegativeRateTruncatesTowardZero | Assets/Synthesiser/Module/ReverbModule.cs:55 | a negative product truncates toward zero (`1557 * -1 / 44100` is 0, not -1) |
| FilterNetwork.RunCombs | Assets/Synthesiser/Module/ReverbModule.cs:53-63 | every comb reads the same dry block; each keeps length and coefficients and only its memory advances |
| FilterNetwork.RunChain | Assets/Synthesiser/Module/ReverbModule.cs:76-81 | the first allpass reads the chain's input and takes its run's memory; each later allpass reads its predecessor's output (the rest of the chain run on that output); the chain's output and count are the last allpass's; lengths and gains are kept |
| FilterNetwork.MixerGroup | Assets/Synthesiser/Module/ReverbModule.cs:72-73 | a first-stage mixer reads exactly the comb outputs its wiring entry names, in order |
| FilterNetwork.Wet | Assets/Synthesiser/Module/ReverbModule.cs:65-81 | pulling a block through the network keeps its shape and changes no filter length or coefficient (the memories it leaves are stated by `FilterNetwork.WetTopology`) |
| FilterNetwork.MixerGroupsPartitionCombs | Assets/Synthesiser/Module/ReverbModule.cs:72-73 | each comb feeds exactly one first-stage mixer: combs 0–3 mixer 0, combs 4–7 mixer 1 |
| FilterNetwork.MixerGroupsAreHalves | Assets/Synthesiser/Module/ReverbModule.cs:72-73 | the wiring table gives mixer 0 the first four comb outputs and mixer 1 the last four |
| FilterNetwork.WetTopology | Assets/Synthesiser/Module/ReverbModule.cs:72-81 | the wet output and count are those of allpass 3 ∘ 2 ∘ 1 ∘ 0 applied to avg(avg(combs 0–3), avg(combs 4–7)); afterwards each comb holds the memory of its run on the dry block and each allpass the memory of its run in the chain, with nothing else changed |
| ReverbModule.New | Assets/Synthesiser/Module/ReverbModule.cs:34-82 | a new module is valid; every comb has feedback and damping 0.5 and the scaled lengths; DryWet is 1; Enabled is false; both getters read 0.5 |
| ReverbModule.Clamp | Assets/Synthesiser/Module/ReverbModule.cs:16 | the clamped value lies in [0, 1] and equals the input when the input already does |
| ReverbModule.RoomSize | Assets/Synthesiser/Module/ReverbModule.cs:13 | the getter reads comb 0; under lockstep that is every comb's feedback |
| ReverbModule.Damping | Assets/Synthesiser/Module/ReverbModule.cs:25 | the getter reads comb 0; under lockstep that is every comb's damping |
| ReverbModule.WithFeedback | Assets/Synthesiser/Module/ReverbModule.cs:17-18 | the loop over the combs gives each the new feedback and leaves its length, damping and memory |
| ReverbModule.WithDamping | Assets/Synthesiser/Module/ReverbModule.cs:29-30 | the loop over the combs gives each the new damping and leaves its length, feedback and memory |
| ReverbModule.SetRoomSize | Assets/Synthesiser/Module/ReverbModule.cs:14-19 | all 8 combs get feedback clamp(v); the getter returns clamp(v); dampings, memories, allpasses, DryWet and Enabled are unchanged; validity is preserved |
| ReverbModule.SetDamping | Assets/Synthesiser/Module/ReverbModule.cs:26-31 | all 8 combs get damping clamp(v); the getter returns clamp(v); feedbacks and everything else are unchanged; validity is preserved |
| ReverbModule.SetDryWet | Assets/Synthesiser/Module/ReverbModule.cs:34 | DryWet is stored exactly as given, with no clamping; nothing else changes |
| ReverbModule.SetEnabled | Assets/Synthesiser/Module/ReverbModule.cs:36 | Enabled is stored; nothing else changes |
| ReverbModule.ClampIsNearest | Assets/Synthesiser/Module/ReverbModule.cs:16 | the clamped value is the point of [0, 1] nearest to the input |
| ReverbModule.ClampIdempotent | Assets/Synthesiser/Module/ReverbModule.cs:16 | clamping twice equals clamping once |
| ReverbModule.OutOfRangeValues | Assets/Synthesiser/Module/ReverbModule.cs:14-34 | RoomSize 1.7 reads back 1 and Damping -0.5 reads back 0, while DryWet 1.7 or -0.5 is kept as given |
| ReverbModule.RoomSizeLastWriteWins | Assets/Synthesiser/Module/ReverbModule.cs:14-19 | setting RoomSize twice equals setting it once to the second value |
| ReverbModule.DampingLastWriteWins | Assets/Synthesiser/Module/ReverbModule.cs:26-31 | setting Damping twice equals setting it once to the second value |
| ReverbModule.SettersCommute | Assets/Synthesiser/Module/ReverbModule.cs:11-32 | setting RoomSize then Damping gives the same state as the reverse order |
| ReverbModule.DryBlock | Assets/Synthesiser/Module/ReverbModule.cs:91 | the dry copy holds the `sampleCount` samples at `offset` (none when the count is not positive) |
| ReverbModule.AfterWet | Assets/Synthesiser/Module/ReverbModule.cs:93 | the final allpass's read changes only the window; inside it each sample is the wet output, or, past that output's end, the dry sample (an assumption, see Left out) |
| ReverbModule.BlendWindow | Assets/Synthesiser/Module/ReverbModule.cs:95-96 | the blend loop sets each window sample to `dryWet*buffer + (1-dryWet)*dry` and writes nothing outside the window |
| ReverbModule.BlendBlock | Assets/Synthesiser/Module/ReverbModule.cs:91-96 | the enabled path's buffer work yields the blended window (`Blended`). With DryWet 1 the window is the wet output; with DryWet 0 the buffer is the upstream data unchanged |
| ReverbModule.WetKeepsValid | Assets/Synthesiser/Module/ReverbModule.cs:93 | running the network on a block keeps the module's invariant: lengths, gains, coefficient ranges and lockstep |
| ReverbModule.Read | Assets/Synthesiser/Module/ReverbModule.cs:84-99 | bypass returns the upstream buffer and `sampleCount`, and the state is unchanged. Enabled fails exactly when the window leaves the buffer. Otherwise the network runs on the dry copy, only filter memories change, the count is the final allpass's, and each window sample is `DryWet*wet + (1-DryWet)*dry` with the rest of the buffer unchanged. DryWet 1 gives the wet signal and DryWet 0 gives the upstream buffer back. Validity is preserved |

## Left out

- ReverbModule.AfterWet: assumes that window positions past a short
  final-allpass output keep the upstream (dry) sample. The unseen chain
  reads in place into the caller's buffer and might write those positions
  itself. The DryWet 1 clauses of `ReverbModule.BlendBlock` and
  `ReverbModule.Read` rest on this assumption, but only when the wet chain
  returns fewer than `sampleCount` samples.
- The comb, allpass, averaging-mixer and dummy-provider internals. They are
  not part of this model and are uninterpreted `Kernels` functions, so no
  property depends on their difference equations. Impulse-response
  determinism is not stated for that reason, and neither are silence
  preservation or comb stability.
- The constructor argument `23` given to every filter. Its meaning lies in
  the filter classes.
- Floating point. Samples and coefficients are `real`, so there is no
  rounding, NaN or infinity. `Math.Clamp` of NaN returning NaN is not
  modelled.
- 32-bit overflow of `ref * SampleRate`. Products are unbounded integers,
  which matches C# for every sample rate below about 1.3 MHz.
- `ReverbModule.Read`: the state and buffer after an `IndexOutOfRange`
  exception are not modelled. By then the wet path has already run and may
  have written part of the buffer. Whether the unseen dry copy or the
  filters would throw earlier is also not modelled.
- The `WaveFormat` property is a pass-through of the upstream format. Only
  the sample rate and channel count are kept, as `ReverbModule.WaveFormat`.
- Scheduling on the audio thread, and parameter writes from other threads.
