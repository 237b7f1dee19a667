# RCA MK-II sound-effects filter: a Dafny model

This project models the RCA MK-II sound-effects filter plugin. The filter is a wave digital filter (WDF) of fourteen leaves:
- twelve reactive elements: the high-pass primary pair `C_HP1`, `C_HP2`, `L_HP1`; the high-pass "mod" pair `C_HPm1`, `C_HPm2`, `L_HPm`; and the low-pass equivalents;
- the resistors `Rin` and `Rt`.

The model covers:
- the parameter-to-component state machine of one `RCA_MK2_SEF` filter instance;
- the block-level control logic of the audio processor that drives two live filters (one per channel) and an analysis ("dummy") instance.

Modules:
- `Elements` (elements.dfy): a reactive element as its value, sample rate and integrator memory, and the fixed adaptor tree that the voltage source drives (nine series and four parallel adaptors arranged as a ladder).
- `Mapping` (mapping.dfy): the continuous cutoff formulas for both sections, the extreme values that pin a disabled "mod" stage, the two eleven-position knob tables and their cutoff-keyed maps, and the knob-position guard.
- `SefModel` (sef_model.dfy): the state of one instance as a value, and every operation as a function from the old state to the new one. This covers `prepare`, `reset`, the impedance setters, `setKVal`, the component, cutoff, knob and mod setters of both sections, and per-sample processing folded over a block. The lemmas state the properties the filter relies on:
  - reset after processing leaves no trace;
  - setting a cutoff is idempotent;
  - toggling a mod flag away and back gives the same state as setting the stored cutoff again;
  - the two sections are independent.
- `Sef` (sef.dfy): the class `RcaMk2Sef`, holding the instance's fields. Its methods update those fields in place. Each method is proved to move `State()` exactly as the matching `SefModel` function does. `ComputeMagnitudeResponse` writes the impulse response into the result array, transforms it in place and resets.
- `Processor` (processor.dfy): `IsInBounds`, `mapImpedanceVal` and its properties, the parameter ranges and defaults, and the per-instance section update of `updateFilters`. It also has the class `AudioProcessor`, whose `ProcessBlock` does the following:
  - clears the output channels that have no input;
  - resets the live filters when a knob position changed;
  - sets the dummy's targets and runs `updateFilters`;
  - replaces every sample of each input channel, in order and in place, with gain times the filter's output.

The audio buffer is an `array2<real>` (channels by samples).

Values are `real`. `root2` and `twoPi` are per-instance constants, with `root2 > 0`, `root2 * root2 == 2` and `twoPi > 0`. The per-sample WDF scattering solver is a parameter `step: Network × real → Network × real`, and only the new element memories are kept from its result. The frequency-only FFT is a length-preserving parameter `transform`. The output gain and the impulse level are parameters in linear units.

## Model

| member | source | states |
|---|---|---|
| `Elements.WithValue` | Source/RCA_MKII_SEF.h:88-90 | setting a capacitance or inductance changes only the value; the sample rate and memory are kept |
| `Elements.TopologyLeaves` | Source/RCA_MKII_SEF.h:257-297 | the leaves of the adaptor tree, from the source resistor to the output resistor, are Rin, C_HPm1, L_HPm, C_HPm2, C_HP1, L_HP1, C_HP2, L_LP1, C_LP1, L_LP2, L_LPm1, C_LPm1, L_LPm2, Rt |
| `Elements.TopologyShape` | Source/RCA_MKII_SEF.h:257-297 | the tree has nine series adaptors (S0..S8) and four parallel adaptors (P1..P4), and every adaptor has a leaf as its first child |
| `Elements.LadderOrderDistinct` | Source/RCA_MKII_SEF.h:257-297 | the fourteen leaves are pairwise distinct |
| `Elements.LadderOrderComplete` | Source/RCA_MKII_SEF.h:257-297 | every one of the fourteen ports is a leaf of the tree |
| `Elements.TopologyOwnsEachPortOnce` | Source/RCA_MKII_SEF.h:257-297 | each element occurs in the adaptor tree exactly once |
| `Mapping.HighPassValues` | Source/RCA_MKII_SEF.h:104-108 | the high-pass pair is positive, resonates at wc (2 C L wc² = 1), and has impedance ratio 2 root2² L = k² C |
| `Mapping.LowPassValues` | Source/RCA_MKII_SEF.h:143-147 | the low-pass pair is positive, with C L wc² = 2 root2² and 2 L = k² C |
| `Mapping.HighPassValuesDecrease` | Source/RCA_MKII_SEF.h:104-108 | a higher high-pass cutoff gives a strictly smaller C and a strictly smaller L |
| `Mapping.LowPassValuesDecrease` | Source/RCA_MKII_SEF.h:143-147 | a higher low-pass cutoff gives a strictly smaller C and a strictly smaller L |
| `Mapping.DesignIdentities` | Source/RCA_MKII_SEF.h:104-147 | with root2 = √2, the high-pass pair has 4 L = k² C (characteristic impedance k/2) and the low-pass pair has C L wc² = 4 |
| `Mapping.BypassValuesAreExtreme` | Source/RCA_MKII_SEF.h:92-136 | the pinned mod values are extreme: for any cutoff between 1e-8 and 1e8 rad/s, the high-pass bypass C and L are larger than the formula's, and the low-pass bypass C and L are smaller |
| `Mapping.TablesStrictlyDecrease` | Source/RCA_MKII_SEF.h:305-333 | HPVals and LPVals have eleven entries each, and C and L both strictly decrease along each table |
| `Mapping.CutoffsIncrease` | Source/RCA_MKII_SEF.h:337-365 | the nominal cutoffs keying HP_map and LP_map strictly increase in table order |
| `Mapping.HighPassMapFollowsTable` | Source/RCA_MKII_SEF.h:337-350 | HP_map maps exactly the eleven nominal cutoffs to the HPVals entries at the same positions |
| `Mapping.LowPassMapFollowsTable` | Source/RCA_MKII_SEF.h:352-365 | LP_map maps exactly the eleven nominal cutoffs to the LPVals entries at the same positions |
| `Mapping.KeyedMapIsInCutoffOrder` | Source/RCA_MKII_SEF.h:335-365 | a map keyed by position, with increasing keys over a strictly decreasing table, holds exactly the table's pairs, and a higher key carries a smaller C and a smaller L |
| `Mapping.MapsInCutoffOrder` | Source/RCA_MKII_SEF.h:335-365 | HP_map and LP_map list the table pairs in ascending-cutoff order, with C and L strictly decreasing in the cutoff |
| `Mapping.HighPassKnobValues` | Source/RCA_MKII_SEF.h:116-117 | a position from 1 to 11 selects a positive pair of HPVals |
| `Mapping.LowPassKnobValues` | Source/RCA_MKII_SEF.h:156-157 | a position from 1 to 11 selects a positive pair of LPVals |
| `Mapping.HighPassAssertionAdmitsZero` | Source/RCA_MKII_SEF.h:116-117 | the high-pass guard as written admits position 0, whose index -1 lies outside the table |
| `Mapping.ValidKnobPosIsExactlyInTable` | Source/RCA_MKII_SEF.h:154-157 | 1 ≤ pos ≤ 11 holds exactly when pos - 1 indexes both tables, and exactly when the low-pass guard holds; it implies the high-pass guard |
| `SefModel.NetworkDetermined` | Source/RCA_MKII_SEF.h:257-297 | two networks with the same values, sample rates and memories are equal |
| `SefModel.Initial` | Source/RCA_MKII_SEF.h:244-297 | a new instance is well formed, with memories clear, both mod flags 1, cutoffs 20 Hz and 20 kHz, impedances and k all 560, fs 48000 with every element at 48 kHz, and the twelve default element values plus Rin = Rt = 560 |
| `SefModel.ValueIndex` | Source/RCA_MKII_SEF.h:257-297 | each of the fourteen ports has a place among the fourteen configured values |
| `SefModel.ValuesByPort` | Source/RCA_MKII_SEF.h:257-297 | the configured value at a port's place is the value of the element that the port names in the adaptor tree |
| `SefModel.LadderCoversValues` | Source/RCA_MKII_SEF.h:257-297 | the fourteen leaves of the ladder name fourteen distinct configured values |
| `SefModel.SetHighPassComponentValues` | Source/RCA_MKII_SEF.h:86-102 | C_HP1 = C_HP2 = C and L_HP1 = L; the mod elements get (C, L) when the flag is nonzero and the 1e-8 rad/s bypass pair when it is zero; only high-pass values change |
| `SefModel.SetHighPassCutoff` | Source/RCA_MKII_SEF.h:104-112 | the primary pair follows the formula at twoPi·fc, the mod pair follows the bypass rule, fc is stored, and nothing outside the high-pass values changes |
| `SefModel.SetHighPassKnobPos` | Source/RCA_MKII_SEF.h:114-119 | the primary pair becomes HPVals[pos-1], the mod pair follows the bypass rule, and the stored cutoff and everything else are kept |
| `SefModel.SetHighPassMod` | Source/RCA_MKII_SEF.h:170-177 | the same flag changes nothing; a different flag is stored and the whole section is re-derived from the stored cutoff |
| `SefModel.SetLowPassComponentValues` | Source/RCA_MKII_SEF.h:124-141 | C_LP1 = C and L_LP1 = L_LP2 = L; the mod elements get (C, L) or the 1e8 rad/s bypass pair; only low-pass values change |
| `SefModel.SetLowPassCutoff` | Source/RCA_MKII_SEF.h:143-152 | the primary pair follows the low-pass formula at twoPi·fc, fc is stored, and nothing outside the low-pass values changes |
| `SefModel.SetLowPassKnobPos` | Source/RCA_MKII_SEF.h:154-159 | the primary pair becomes LPVals[pos-1], and the stored cutoff and everything else are kept |
| `SefModel.SetLowPassMod` | Source/RCA_MKII_SEF.h:161-168 | the same flag changes nothing; a different flag is stored and the section is re-derived from the stored cutoff |
| `SefModel.SetInputImpedance` | Source/RCA_MKII_SEF.h:77-84 | the stored input impedance and Rin become z and nothing else changes (so an equal z changes nothing) |
| `SefModel.SetOutputImpedance` | Source/RCA_MKII_SEF.h:68-75 | the stored output impedance and Rt become z and nothing else changes |
| `SefModel.SetKVal` | Source/RCA_MKII_SEF.h:179-183 | only k changes; no component is re-derived |
| `SefModel.Prepare` | Source/RCA_MKII_SEF.h:31-49 | fs is stored and all twelve reactive elements are prepared at it; values and memories are kept |
| `SefModel.Reset` | Source/RCA_MKII_SEF.h:51-66 | all twelve memories are zero; values, rates, flags, cutoffs and impedances are kept |
| `SefModel.HighPassModTarget` | Source/RCA_MKII_SEF.h:92-100 | the high-pass mod pair copies the primary pair when the flag is nonzero, and is pinned to the 1e-8 rad/s formula pair when it is zero |
| `SefModel.LowPassModTarget` | Source/RCA_MKII_SEF.h:131-140 | the low-pass mod pair copies the primary pair when the flag is nonzero, and is pinned to the 1e8 rad/s formula pair when it is zero |
| `SefModel.ProcessSample` | Source/RCA_MKII_SEF.h:185-191 | one solver step on the current network: the memories it computes and its output voltage |
| `SefModel.ProcessSampleKeepsSettings` | Source/RCA_MKII_SEF.h:185-191 | one sample moves only the element memories, to those the solver computed, and returns the solver's output |
| `SefModel.Run` | Source/RCA_MKII_SEF.h:199-200 | feeding a block of samples gives one output per input |
| `SefModel.RunKeepsSettings` | Source/RCA_MKII_SEF.h:199-200 | however many samples are fed, no value, rate or setting changes, and well-formedness is preserved |
| `SefModel.Impulse` | Source/RCA_MKII_SEF.h:238-239 | the impulse has fftSize samples: the level first, then zeros |
| `SefModel.RunAppend` | Source/RCA_MKII_SEF.h:199-200 | feeding xs and then ys, carrying the state across, equals feeding xs + ys, both in the final state and in the outputs |
| `SefModel.RunSnoc` | Source/RCA_MKII_SEF.h:199-200 | one more sample at the end of a block is one more processSample step |
| `SefModel.RunPrefix` | Source/RCA_MKII_SEF.h:199-200 | the prefix of length i+1 is the prefix of length i followed by sample i |
| `SefModel.ResetAfterRun` | Source/RCA_MKII_SEF.h:196-205 | a reset after any amount of processing gives exactly the state that a reset before it gives |
| `SefModel.HighPassCutoffIdempotent` | Source/RCA_MKII_SEF.h:104-112 | setting the same high-pass cutoff twice is the same as setting it once |
| `SefModel.LowPassCutoffIdempotent` | Source/RCA_MKII_SEF.h:143-152 | setting the same low-pass cutoff twice is the same as setting it once |
| `SefModel.HighPassModRoundTrip` | Source/RCA_MKII_SEF.h:170-177 | toggling the high-pass mod flag away and back equals setHighPassCutoff(stored cutoff) under the original flag |
| `SefModel.LowPassModRoundTrip` | Source/RCA_MKII_SEF.h:161-168 | toggling the low-pass mod flag away and back equals setLowPassCutoff(stored cutoff) under the original flag |
| `SefModel.HighPassModRoundTripRestores` | Source/RCA_MKII_SEF.h:161-177 | after a setHighPassCutoff, the mod round trip restores the state exactly |
| `SefModel.LowPassModRoundTripRestores` | Source/RCA_MKII_SEF.h:161-177 | after a setLowPassCutoff, the mod round trip restores the state exactly |
| `SefModel.SectionsCommute` | Source/RCA_MKII_SEF.h:104-152 | setting the high-pass and low-pass cutoffs in either order gives the same state |
| `Sef.RcaMk2Sef.constructor` | Source/RCA_MKII_SEF.h:241-297 | the object starts in the initial state, with its constants stored |
| `Sef.RcaMk2Sef.Prepare` | Source/RCA_MKII_SEF.h:31-49 | the fields move as SefModel.Prepare |
| `Sef.RcaMk2Sef.Reset` | Source/RCA_MKII_SEF.h:51-66 | the fields move as SefModel.Reset |
| `Sef.RcaMk2Sef.SetOutputImpedance` | Source/RCA_MKII_SEF.h:68-75 | the fields move as SefModel.SetOutputImpedance |
| `Sef.RcaMk2Sef.SetInputImpedance` | Source/RCA_MKII_SEF.h:77-84 | the fields move as SefModel.SetInputImpedance |
| `Sef.RcaMk2Sef.SetHighPassComponentValues` | Source/RCA_MKII_SEF.h:86-102 | the fields move as SefModel.SetHighPassComponentValues |
| `Sef.RcaMk2Sef.SetHighPassCutoff` | Source/RCA_MKII_SEF.h:104-112 | the fields move as SefModel.SetHighPassCutoff |
| `Sef.RcaMk2Sef.SetHighPassKnobPos` | Source/RCA_MKII_SEF.h:114-119 | the fields move as SefModel.SetHighPassKnobPos |
| `Sef.RcaMk2Sef.SetLowPassComponentValues` | Source/RCA_MKII_SEF.h:124-141 | the fields move as SefModel.SetLowPassComponentValues |
| `Sef.RcaMk2Sef.SetLowPassCutoff` | Source/RCA_MKII_SEF.h:143-152 | the fields move as SefModel.SetLowPassCutoff |
| `Sef.RcaMk2Sef.SetLowPassKnobPos` | Source/RCA_MKII_SEF.h:154-159 | the fields move as SefModel.SetLowPassKnobPos |
| `Sef.RcaMk2Sef.SetLowPassMod` | Source/RCA_MKII_SEF.h:161-168 | the fields move as SefModel.SetLowPassMod |
| `Sef.RcaMk2Sef.SetHighPassMod` | Source/RCA_MKII_SEF.h:170-177 | the fields move as SefModel.SetHighPassMod |
| `Sef.RcaMk2Sef.SetKVal` | Source/RCA_MKII_SEF.h:179-183 | the fields move as SefModel.SetKVal |
| `Sef.RcaMk2Sef.ProcessSample` | Source/RCA_MKII_SEF.h:185-191 | the fields and the output are those of SefModel.ProcessSample |
| `Sef.RcaMk2Sef.ProcessSamples` | Source/RCA_MKII_SEF.h:199-200 | result[i] is the output for sample i, the samples fed in order, and the final state is Run's |
| `Sef.RcaMk2Sef.ComputeMagnitudeResponse` | Source/RCA_MKII_SEF.h:196-205 | all fftSize slots hold the transform of the impulse response of the current network, and the object ends in exactly the state that a plain reset gives |
| `Sef.RcaMk2Sef.GetHighPassCutoff` | Source/RCA_MKII_SEF.h:230 | returns the stored high-pass cutoff |
| `Sef.RcaMk2Sef.GetLowPassCutoff` | Source/RCA_MKII_SEF.h:231 | returns the stored low-pass cutoff |
| `Sef.TransformInPlace` | Source/RCA_MKII_SEF.h:202 | the buffer is replaced by the transform of its old contents |
| `Processor.IsInBounds` | Source/PluginProcessor.cpp:201-205 | inclusive at both ends |
| `Processor.Jmap` | Source/PluginProcessor.cpp:212-214 | the ends of the source range map to the ends of the target range |
| `Processor.MapImpedanceVal` | Source/PluginProcessor.cpp:208-216 | 0 maps to 560 ohms, -100 to 0.001 and 100 to 5000; inputs outside [-100, 100] are excluded |
| `Processor.MapImpedanceSlopes` | Source/PluginProcessor.cpp:210-214 | on [-100, 0] the map is 560 + 5.59999·v, and on [0, 100] it is 560 + 44.4·v |
| `Processor.MapImpedanceMonotone` | Source/PluginProcessor.cpp:208-216 | over [-100, 100] the map is non-decreasing |
| `Processor.MapImpedanceRange` | Source/PluginProcessor.cpp:208-216 | every mapped impedance lies in [0.001, 5000] |
| `Processor.MapImpedanceContinuousAtZero` | Source/PluginProcessor.cpp:210-214 | both branches meet at 560, and the map moves at most 44.4 ohms per percent away from 0 |
| `Processor.InRange` | Source/PluginProcessor.cpp:31-49 | the declared parameter ranges: cutoffs 20..20000 Hz, knob positions 1..11, Z -100..100 %, gain 0..20 dB |
| `Processor.DefaultsAgreeWithFilter` | Source/PluginProcessor.cpp:37-47 | the declared defaults lie in their ranges, the default cutoffs are a new filter's stored cutoffs, and the default Z maps to its 560 ohms |
| `Processor.LowPassSection` | Source/PluginProcessor.cpp:174-180 | continuous: the low-pass primary elements follow the formula at the parameter cutoff, which is stored; discrete: they take LPVals[pos-1] and the stored cutoff is kept; in both modes the mod elements follow the bypass rule for that pair; nothing outside the section changes |
| `Processor.HighPassSection` | Source/PluginProcessor.cpp:182-188 | the same for the high-pass section, with HPVals and the high-pass bypass rule |
| `Processor.UpdateSections` | Source/PluginProcessor.cpp:190-194 | only section values and, in continuous mode, the stored cutoffs change; flags, impedances, k, rates and memory are kept |
| `Processor.UpdateSectionsValues` | Source/PluginProcessor.cpp:174-194 | after the update, both sections hold the pair their mode selects (the formula at the parameter cutoff, or the knob's table entry), and the mod pairs their flags select for it |
| `Processor.LiveUpdate` | Source/PluginProcessor.cpp:243-266 | a live filter whose knobs changed has clear memory, otherwise its memory is kept; flags, k and impedances are kept |
| `Processor.ChannelImpedances` | Source/PluginProcessor.cpp:273-274 | both impedances and Rin/Rt become the mapped Z values and nothing else changes |
| `Processor.DummyUpdate` | Source/PluginProcessor.cpp:261-266 | the dummy's stored cutoffs equal the continuous parameters even in discrete mode, its impedances are the mapped Z values, and its memory is kept |
| `Processor.Scaled` | Source/PluginProcessor.cpp:285 | each output sample is gain times the filtered sample |
| `Processor.HighPassSectionDetermined` | Source/PluginProcessor.cpp:182-188 | after the section update, the high-pass values depend only on the flag, k and the constants, not on the previous values |
| `Processor.LowPassSectionDetermined` | Source/PluginProcessor.cpp:174-180 | the same for the low-pass values |
| `Processor.SectionsDetermined` | Source/PluginProcessor.cpp:190-194 | two instances with the same flags, k and constants receive the same twelve component values from the same update |
| `Processor.DummyMirrorsLiveFilter` | Source/PluginProcessor.cpp:190-197 | after one block, the dummy and a live filter hold the same component values and the same Rin/Rt, in discrete and in continuous mode |
| `Processor.BlockKeepsSampleRate` | Source/PluginProcessor.cpp:243-287 | a block (knob reset, section update, impedances, samples) never changes an instance's sample rate or the rate its elements were prepared at |
| `Processor.RunBlocks` | Source/PluginProcessor.cpp:243-287 | a live filter after a sequence of blocks, each the knob reset, the section update, the impedances and the samples, stays well formed |
| `Processor.BlocksKeepSampleRate` | Source/PluginProcessor.cpp:243-287 | any sequence of blocks keeps an instance's sample rate and the rate its elements were prepared at |
| `Processor.BlocksRunAtConstructionRate` | Source/PluginProcessor.cpp:121-125 | prepareToPlay as written prepares nothing, so after any sequence of blocks from construction a live filter still runs at the 48 kHz of its initialisers, whatever the host's rate |
| `Processor.PreparedBlocksRunAtHostRate` | Source/PluginProcessor.cpp:121-125 | once prepared at the host's rate, an instance runs at that rate after any sequence of blocks |
| `Processor.ChannelRun` | Source/PluginProcessor.cpp:273-286 | a channel's filter, with its impedances set, yields one output per buffer sample |
| `Processor.ProcessChannel` | Source/PluginProcessor.cpp:279-286 | each sample of the channel, in order, is replaced in place by gain times the filter's output; the filter ends in Run's final state; other channels are untouched |
| `Processor.ClearChannels` | Source/PluginProcessor.cpp:233-239 | channels from..to-1 become all zeros and other channels are untouched |
| `Processor.AudioProcessor.constructor` | Source/PluginProcessor.h:69-85 | three distinct instances in the initial state, both sections continuous, and the previous knob positions as given |
| `Processor.AudioProcessor.PrepareToPlay` | Source/PluginProcessor.cpp:121-125 | the intended prepareToPlay: both live filters and the dummy move as SefModel.Prepare at the host's rate |
| `Processor.AudioProcessor.KnobsChanged` | Source/PluginProcessor.cpp:243 | either knob position differs from the remembered one |
| `Processor.AudioProcessor.SetLowPassParameters` | Source/PluginProcessor.cpp:174-180 | the filter moves as LowPassSection under the current flag |
| `Processor.AudioProcessor.SetHighPassParameters` | Source/PluginProcessor.cpp:182-188 | the filter moves as HighPassSection under the current flag |
| `Processor.AudioProcessor.UpdateInstance` | Source/PluginProcessor.cpp:192-193 | low-pass, then high-pass: the filter moves as UpdateSections |
| `Processor.AudioProcessor.UpdateLiveFilters` | Source/PluginProcessor.cpp:190-194 | both live filters receive the same UpdateSections update |
| `Processor.AudioProcessor.UpdateFilters` | Source/PluginProcessor.cpp:166-199 | every live filter and the dummy receive the same UpdateSections update |
| `Processor.AudioProcessor.ResetLiveFilters` | Source/PluginProcessor.cpp:245-246 | both live filters are reset; the dummy is not touched |
| `Processor.AudioProcessor.ResetOnKnobChange` | Source/PluginProcessor.cpp:243-250 | if either knob position differs from the remembered one, both live filters are reset and both positions are remembered; otherwise nothing changes |
| `Processor.AudioProcessor.SetDummyTargets` | Source/PluginProcessor.cpp:258-264 | the dummy gets both continuous cutoffs, then both mapped impedances |
| `Processor.AudioProcessor.ProcessOneChannel` | Source/PluginProcessor.cpp:270-286 | the channel's impedances are set, then its samples become gain times the outputs; other channels are untouched |
| `Processor.AudioProcessor.ProcessChannels` | Source/PluginProcessor.cpp:268-287 | each input channel is processed by its own filter; filters and channels past the input count are untouched |
| `Processor.AudioProcessor.UpdateForBlock` | Source/PluginProcessor.cpp:243-266 | the knob-change reset, the dummy targets and updateFilters: each live filter moves as LiveUpdate, the dummy moves as DummyUpdate, and the knob positions are remembered |
| `Processor.AudioProcessor.ProcessBlock` | Source/PluginProcessor.cpp:219-288 | over the whole block: every input channel k holds gain times the outputs of its filter; output channels past the inputs are zero; the filters end in Run's final state after LiveUpdate; the dummy moves as DummyUpdate and never sees the samples |

## Left out

- The WDF scattering (`processSample`'s port-resistance derivation and the reflection of waves at adaptors, the voltage source and the elements) belongs to the `chowdsp_wdf` library, which is not part of this model. It is the `step` parameter. The ideal voltage source `Vs` holds no state of its own in the model.
- `prepare` of one element is modelled as storing the sample rate only. What the library derives from it is inside `step`.
- `juce::dsp::FFT::performFrequencyOnlyForwardTransform` is the length-preserving parameter `transform`.
- `Decibels::decibelsToGain` (`getCurrentGain`, the block gain, the impulse level) is floating-point `pow`. The gain and the impulse level are parameters, and `getCurrentGain` is not modelled.
- IEEE single-precision arithmetic is left out: all values are `real`, and the `!=` change guards are real inequality. A non-positive cutoff or k, which the source would turn into infinities or negative components, is excluded by `Wf`, and `SetKVal`, `SetHighPassCutoff` and `SetLowPassCutoff` require a positive argument.
- `root2` and `twoPi` cannot be written as exact reals. They are constructor parameters with `root2 * root2 == 2`, `root2 > 0` and `twoPi > 0`.
- `saveResponseToCSV` is file and console I/O.
- JUCE host plumbing is left out: bus layouts, programs, state, the parameter store's atomics, and `SmoothedValue` targets, which are set but never read. The bus layout admits mono or stereo, so `ProcessBlock` requires at most two input channels.
- The parameter store is read once per block into `Params`. `updateFilters` reads the store again; the model assumes it reads the same values, which holds only when no parameter changes during the block.
- The model is single-threaded. In the source, `processBlock` writes the dummy on the audio thread (Source/PluginProcessor.cpp:196-197, 261-264), while the response-curve timer resets it through `computeMagnitudeResponse` on the message thread (Source/ResponseCurveComponent.h:43, Source/PluginProcessor.h:63). Interleavings of the two are not modelled.
- The editor's callbacks are not modelled. The continuous/discrete toggle sets the mod flag of the live filters only, not of the dummy (Source/PluginEditor.cpp:84-90). In the running plugin the dummy's flags can therefore differ from a live filter's, and the requires of `Processor.DummyMirrorsLiveFilter` (the same flags on both) does not always hold.
- `SefModel.Prepare`: an element's `prepare` belongs to the WDF library. The model assumes that it keeps the element's memory; the library may also clear it.
- The user interface (editor, response curve, look and feel, panels, toggles) is out of scope. The `isHighPassContinuous` and `isLowPassContinuous` flags are fields that nothing in the model writes except the constructor.
- `prevHighPassKnobPos` and `prevLowPassKnobPos` have no initialiser in the source. They are constructor parameters.
- `Sef.RcaMk2Sef.ProcessSample`: the source's `processSample` reads nothing but the network. Its output is the solver's. Only the memory part of the solver's network is kept, so the solver cannot change a configured value.
- `SefModel.Run`: its own contract states only the length of the output. What it keeps and how it composes are in `RunKeepsSettings`, `RunAppend`, `RunSnoc` and `RunPrefix`.
- The stored impulse is `decibelsToGain(1e-12)`, which is close to 1.0, not a very small sample; its level is a parameter.
- The disabled high-pass mod stage gets a very large C and a very large L from its formula at 1e-8 rad/s.
- The adaptor tree in `Elements` (and `SefModel.ValueIndex`, `SefModel.ValuesByPort`, `SefModel.LadderCoversValues`) documents the wiring of the header. It is not an input to the solver: `step` is opaque and does not read the tree, so the model does not prove that processing follows this wiring.

## Findings

| source | as written | input that shows it | evidently intended | confidence | as-written member | corrected member |
|---|---|---|---|---|---|---|
| Source/PluginProcessor.cpp:121-125 | `prepareToPlay` is empty, so no instance is ever prepared and every element keeps the 48 kHz of its initialisers (Source/RCA_MKII_SEF.h:255-291) | a host running at 44.1 kHz or 96 kHz: every block is processed with 48 kHz coefficients, which shifts every cutoff by the ratio of the two rates | `prepareToPlay` calls `prepare(sampleRate)` on both live filters and the dummy | not executed; medium | `Processor.BlocksRunAtConstructionRate` | `Processor.AudioProcessor.PrepareToPlay` |
| Source/RCA_MKII_SEF.h:116 | the guard before the high-pass table lookup is `pos <= HPVals.size() && pos >= 0`, so it admits position 0 | `setHighPassKnobPos(0)` passes the guard and reads `HPVals[-1]` | `pos > 0 && pos <= HPVals.size()`, the same guard the low-pass setter uses | not executed; high | `Mapping.HighPassAssertionAdmitsZero` | `Mapping.ValidKnobPosIsExactlyInTable` |
