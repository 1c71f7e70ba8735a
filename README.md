# One-pole audio filter plug-ins, modelled in Dafny

The repository ships the same audio effect several times. The effect is a first-order (one-pole) low-pass or high-pass filter with a selectable cutoff frequency. Each variant is written for a different host:

- an Apple AudioUnit (`FilterAudioUnit`, C++);
- a Steinberg VST3 processor and edit controller (`FilterVST3`, `FilterVST3Controller`, C++);
- a REAPER ReaScript (`FilterReaScript`, Python);
- a socket bridge for DAWs (`FilterPlugin` and `PluginHostBridge`, Python);
- a stand-alone tkinter application (`AudioFilterPlugin`, Python);
- a demonstration script (`FilterDemo`, Python).

Every variant keeps, for each channel, the previous input and the previous output. Every variant derives a coefficient α from the cutoff `fc` and the sample rate `sr`:

- low-pass: α = 1 / (1 + fc/sr), output = (1 − α)·x + α·y₁;
- high-pass: α = fc / (fc + sr), output = α·(y₁ + x − x₁).

The model has one module per variant, over a shared filter module:

- `OnePole` (one_pole.dfy) gives the filter as pure functions:
  - `Step` filters one sample;
  - `Run` gives the memory after a block;
  - `Outputs` gives the output block.

  It also proves what the filter does: the recurrences, block chunking, the closed-form step responses, the low-pass approaching a constant input and the high-pass decaying on it, and silence staying silent.
- `AudioUnitFilter`, `Vst3Processor`, `Vst3Controller`, `ReaScriptFilter`, `HostBridge`, `AudioFilter` and `FilterDemo` model the plug-in classes and scripts. Each is a class with the source's fields, or methods with the source's loops. Each processing method is proved against `OnePole.Outputs`/`OnePole.Run`.
- `Vst3State` models the VST3 state streams: little-endian int32 fields and 4-octet float fields. It proves the processor and controller round trips.
- `Numeric` models C++ `(int)` truncation. `Wrappers` holds `Option`.

Real numbers stand in for `float`/`double`. A coefficient is computed only where its formula's divisors are non-zero. The low-pass formula needs `sampleRate != 0` and `cutoff + sampleRate != 0` (`OnePole.LowPassDefined`). The high-pass formula needs only `cutoff + sampleRate != 0` (`OnePole.HighPassDefined`).

Behaviour of the code that the model keeps:

- No variant checks that the sample rate is positive (FilterAudioUnit.cpp:135-141, FilterVST3.cpp:58-62).
- In the AudioUnit, the bridge and the stand-alone application, setting the filter type always clears the filter memory, even when the type does not change (FilterAudioUnit.cpp:201-204, plugin_host_bridge.py:152-156, audio_filter_plugin.py:316-319).
- The VST3 processor's `setState` and the ReaScript `process_samples` change the filter type without clearing the memory (FilterVST3.cpp:123-139, filter_reascript.py:58-63).
- The VST3 `process` has no guard for an inactive processor (FilterVST3.cpp:64-100).
- The VST3 processor's `setState` stores the cutoff without clamping it (FilterVST3.cpp:123-139).
- The AudioUnit `Initialize` clears the memory only on the transition from uninitialised (FilterAudioUnit.cpp:38-46).
- kResultTrue and kResultOk are the same VST3 result code, so the model has one `ResultOk` for both.

## Model

| member | source | states |
|---|---|---|
| Numeric.TruncateToInt | AudioUnit/FilterAudioUnit.cpp:202 | `(int)` of a float drops the fraction toward zero: n ≤ x < n+1 for x ≥ 0, and n−1 < x ≤ n for x < 0 |
| OnePole.LowPassAlpha | AudioUnit/FilterAudioUnit.cpp:271-272 | the low-pass coefficient 1/(1+fc/sr) satisfies α·(fc+sr) = sr |
| OnePole.HighPassAlpha | AudioUnit/FilterAudioUnit.cpp:273-274 | the high-pass coefficient satisfies α·(fc+sr) = fc, needing only fc+sr ≠ 0; where sr ≠ 0 it is 1 minus the low-pass coefficient |
| OnePole.AlphaOfCode | AudioUnit/FilterAudioUnit.cpp:270-276 | type code 0 selects the low-pass formula and every other code the high-pass formula, each defined where its own divisors are non-zero; for positive fc and sr the coefficient lies in (0, 1) |
| OnePole.AlphaOfName | plugin_host_bridge.py:193-198 | the name "lowpass" selects the low-pass formula and every other name the high-pass formula, each defined where its own divisors are non-zero; for positive fc and sr the coefficient lies in (0, 1) |
| OnePole.AlphaInOpenUnitInterval | filter_demo.py:18-24 | for positive cutoff and sample rate both coefficients are strictly between 0 and 1 |
| OnePole.KindOfCode | AudioUnit/FilterAudioUnit.cpp:270-276 | type code 0 (kFilterType_LowPass) selects the low-pass recurrence, and every other code the high-pass one |
| OnePole.KindOfName | plugin_host_bridge.py:193-198 | the name "lowpass" selects the low-pass recurrence, and every other name the high-pass one |
| OnePole.Step | AudioUnit/FilterAudioUnit.cpp:246-263 | one low-pass sample leaves the stored previous input alone; one high-pass sample stores the new input as the previous input |
| OnePole.Outputs | plugin_host_bridge.py:215-225 | filtering a block gives exactly one output sample per input sample |
| OnePole.OutputsExtend | plugin_host_bridge.py:219-223 | filtering one more sample appends exactly one output: the new memory's output, computed from the memory left by the earlier samples |
| OnePole.OutputsAt | filter_demo.py:33-36 | output i is the output after the first i+1 samples |
| OnePole.RunAppend | plugin_host_bridge.py:215-225 | filtering a block in two chunks, with the memory carried across, gives the same outputs and the same final memory as filtering it in one piece |
| OnePole.LowPassKeepsInput | AudioUnit/FilterAudioUnit.cpp:246-253 | the low-pass filter never changes the stored previous input |
| OnePole.Run | AudioUnit/FilterAudioUnit.cpp:246-263 | an empty block leaves the memory as it was; after a non-empty block the high-pass filter's stored input is the block's last sample |
| OnePole.LowPassRecurrence | filter_demo.py:33-36 | low-pass output i = (1−α)·x[i] + α·(output i−1, or the initial memory's output for i = 0) |
| OnePole.HighPassRecurrence | filter_demo.py:47-52 | high-pass output i = α·(previous output + x[i] − previous input), with the previous values taken from the initial memory for i = 0 |
| OnePole.LowPassStepResponse | filter_demo.py:26-38 | from cleared memory, n samples of a constant c leave the low-pass output at c·(1 − αⁿ) |
| OnePole.HighPassStepResponse | filter_demo.py:40-54 | from cleared memory, n > 0 samples of a constant c leave the high-pass memory at (c, αⁿ·c) |
| OnePole.LowPassConstantOutputs | filter_demo.py:26-38 | low-pass output i for a constant input from cleared memory is c·(1 − α^(i+1)) |
| OnePole.HighPassConstantOutputs | filter_demo.py:40-54 | high-pass output i for a constant input from cleared memory is α^(i+1)·c |
| OnePole.SilenceStaysSilent | filter_demo.py:26-54 | zeros into a cleared filter of either kind give zeros out and leave the memory cleared |
| OnePole.LowPassStepCloser | filter_demo.py:34 | one low-pass step on input c never moves the output away from c, and strictly reduces a non-zero distance when 0 < α < 1 |
| OnePole.LowPassWithin | filter_demo.py:26-38 | on a constant c from cleared memory the low-pass output stays within \|c\| of c and never reaches c exactly when c ≠ 0 |
| OnePole.LowPassApproaches | filter_demo.py:26-38 | on a constant non-zero c, each further sample brings the low-pass output strictly closer to c |
| OnePole.HighPassStepFades | filter_demo.py:49 | a high-pass step whose input repeats the previous input scales the output by α, so a non-zero output strictly shrinks |
| OnePole.HighPassBelow | filter_demo.py:40-54 | on a constant non-zero c the high-pass output is non-zero and strictly smaller than \|c\| after the first sample |
| OnePole.HighPassDecays | filter_demo.py:40-54 | on a constant non-zero c the high-pass output's magnitude strictly decreases with every further sample |
| OnePole.RewriteNext | ReaScript/filter_reascript.py:66-71 | writing the next output into a buffer whose prefix holds the outputs so far extends that prefix by one |
| AudioUnitFilter.ClampCutoff | AudioUnit/FilterAudioUnit.cpp:206-208 | the cutoff is clamped to [50, 8000]: values inside are kept, values below become 50, values above become 8000 |
| AudioUnitFilter.FilterAudioUnit.constructor | AudioUnit/FilterAudioUnit.cpp:14-33 | cutoff 1000 Hz, low-pass, 44100 Hz, uninitialised, two cleared channels |
| AudioUnitFilter.FilterAudioUnit.ResetFilter | AudioUnit/FilterAudioUnit.cpp:265-268 | both channels' memories are zeroed; parameters are unchanged |
| AudioUnitFilter.FilterAudioUnit.Initialize | AudioUnit/FilterAudioUnit.cpp:38-46 | the unit becomes initialised; the memory is cleared only on the first transition; noErr is returned |
| AudioUnitFilter.FilterAudioUnit.Uninitialize | AudioUnit/FilterAudioUnit.cpp:48-51 | the unit becomes uninitialised and keeps its memory |
| AudioUnitFilter.FilterAudioUnit.GetSampleRateProperty | AudioUnit/FilterAudioUnit.cpp:98-104 | a buffer of at least 8 bytes receives the sample rate; a smaller one gives kAudioUnitErr_InvalidPropertyValue |
| AudioUnitFilter.FilterAudioUnit.SetSampleRateProperty | AudioUnit/FilterAudioUnit.cpp:135-141 | a value of at least 8 bytes replaces the sample rate (unchecked); a smaller one is rejected and changes nothing |
| AudioUnitFilter.FilterAudioUnit.GetStreamFormatProperty | AudioUnit/FilterAudioUnit.cpp:90-96 | a buffer of at least 40 bytes (one stream description) receives the stream format's sample rate with noErr; a smaller one gives kAudioUnitErr_InvalidPropertyValue and keeps its size |
| AudioUnitFilter.FilterAudioUnit.SetStreamFormatProperty | AudioUnit/FilterAudioUnit.cpp:127-133 | a whole stream description sets both the stream format's rate and the filter's sample rate to its rate, exactly as the sample-rate property does with the same rate; a smaller one gives kAudioUnitErr_InvalidPropertyValue and changes nothing; cutoff, type and the initialised flag are kept |
| AudioUnitFilter.FilterAudioUnit.GetParameter | AudioUnit/FilterAudioUnit.cpp:177-193 | parameter 0 reads the type and 1 reads the cutoff; any other id gives kAudioUnitErr_InvalidParameter |
| AudioUnitFilter.FilterAudioUnit.SetParameter | AudioUnit/FilterAudioUnit.cpp:195-213 | id 0 truncates the value to the type and clears the memory; id 1 stores the clamped cutoff; any other id is rejected and changes nothing |
| AudioUnitFilter.FilterAudioUnit.ApplyLowPassFilter | AudioUnit/FilterAudioUnit.cpp:246-253 | the channel's memory becomes one low-pass `Step`; the result is that step's output; the other channel is untouched |
| AudioUnitFilter.FilterAudioUnit.ApplyHighPassFilter | AudioUnit/FilterAudioUnit.cpp:255-263 | the channel's memory becomes one high-pass `Step`; the result is that step's output |
| AudioUnitFilter.FilterAudioUnit.RenderChannel | AudioUnit/FilterAudioUnit.cpp:226-240 | the first `frames` samples of the buffer are replaced by `Outputs` of the unit's kind and coefficient; the channel's memory becomes `Run` over them |
| AudioUnitFilter.FilterAudioUnit.Render | AudioUnit/FilterAudioUnit.cpp:215-244 | an uninitialised unit returns kAudioUnitErr_Uninitialized and changes nothing; otherwise every channel buffer holds `Outputs` of its old contents from its own memory |
| Vst3State.Int32Octets | VST3/FilterVST3_Distribution/FilterVST3.cpp:148 | an int32 is written as four byte octets |
| Vst3State.Int32Value | VST3/FilterVST3_Distribution/FilterVST3.cpp:133 | four octets read back as a signed 32-bit value |
| Vst3State.FloatOctets | VST3/FilterVST3_Distribution/FilterVST3.cpp:147 | a float is written as four octets |
| Vst3State.ReadFloat | VST3/FilterVST3_Distribution/FilterVST3.cpp:132 | a float read fails exactly when fewer than 4 octets remain, and otherwise consumes exactly 4 |
| Vst3State.ReadInt32 | VST3/FilterVST3_Distribution/FilterVST3.cpp:133 | an int32 read fails exactly when fewer than 4 octets remain, and otherwise consumes 4 and yields a 32-bit value |
| Vst3State.Int32RoundTrip | VST3/FilterVST3_Distribution/FilterVST3.cpp:133-148 | reading back a written int32 gives the same value and leaves the rest of the stream |
| Vst3State.FloatRoundTrip | VST3/FilterVST3_Distribution/FilterVST3.cpp:132-147 | reading back a written float gives the same value and leaves the rest of the stream |
| Vst3State.EncodeProcessorState | VST3/FilterVST3_Distribution/FilterVST3.cpp:141-151 | the processor state is 8 octets: the cutoff, then the type |
| Vst3State.DecodeProcessorState | VST3/FilterVST3_Distribution/FilterVST3.cpp:123-139 | decoding fails exactly on streams shorter than 8 octets; a decoded type is a 32-bit value |
| Vst3State.ProcessorStateRoundTrip | VST3/FilterVST3_Distribution/FilterVST3.cpp:123-151 | `setState(getState())` restores the cutoff and the type |
| Vst3State.EncodeControllerState | VST3/FilterVST3Controller.cpp:72-87 | the controller state is 12 octets: cutoff, type, bypass |
| Vst3State.DecodeControllerState | VST3/FilterVST3Controller.cpp:46-58 | decoding fails exactly on streams shorter than 12 octets; decoded fields are valid |
| Vst3State.ControllerStateRoundTrip | VST3/FilterVST3Controller.cpp:46-87 | decoding a written controller state gives back the same three fields |
| Vst3State.NormalizeCutoff | VST3/FilterVST3Controller.cpp:60 | the stored cutoff is divided by 20000 to become a normalised value |
| Vst3State.ReportedFields | VST3/FilterVST3Controller.cpp:78-80 | a missing parameter reports its default: cutoff 1000, type 0, bypass 0 |
| Vst3State.StoredFieldsReported | VST3/FilterVST3Controller.cpp:60-80 | fields loaded by `setComponentState` are reported unchanged by `getState` |
| Vst3State.ProcessorStateRejectedByController | VST3/FilterVST3Controller.cpp:56-58 | the controller cannot decode any state the processor writes (see Findings) |
| Vst3State.DecodeComponentState | VST3/FilterVST3Controller.cpp:46-65 | corrected decoder: it accepts the 8-octet processor state and agrees with the three-field decoder on streams of at least 12 octets |
| Vst3State.ComponentStateFromProcessor | VST3/FilterVST3_Distribution/FilterVST3.cpp:141-151 | the corrected decoder recovers the processor's cutoff and type, with bypass off |
| Vst3Processor.FilterVST3.constructor | VST3/FilterVST3_Distribution/FilterVST3.cpp:11-23 | cutoff 1000 Hz, low-pass, 44100 Hz, two cleared channels |
| Vst3Processor.FilterVST3.SetActive | VST3/FilterVST3_Distribution/FilterVST3.cpp:45-56 | activation clears both channels, deactivation keeps them; the base class's result is returned |
| Vst3Processor.FilterVST3.SetupProcessing | VST3/FilterVST3_Distribution/FilterVST3.cpp:58-62 | the sample rate is taken unchecked from the setup and the base class's result is returned |
| Vst3Processor.FilterVST3.ApplyLowPassFilter | VST3/FilterVST3_Distribution/FilterVST3.cpp:102-110 | the channel's memory becomes one low-pass `Step` and the result is its output |
| Vst3Processor.FilterVST3.ApplyHighPassFilter | VST3/FilterVST3_Distribution/FilterVST3.cpp:112-121 | the channel's memory becomes one high-pass `Step` and the result is its output |
| Vst3Processor.FilterVST3.ProcessChannel | VST3/FilterVST3_Distribution/FilterVST3.cpp:77-95 | the output buffer's first `numSamples` samples are `Outputs` of the input buffer; the channel's memory is `Run` over it |
| Vst3Processor.FilterVST3.Process | VST3/FilterVST3_Distribution/FilterVST3.cpp:64-100 | at most two channels are filtered, each from its own memory; the result is always kResultTrue |
| Vst3Processor.FilterVST3.SetState | VST3/FilterVST3_Distribution/FilterVST3.cpp:123-139 | no stream or a failed read gives kResultFalse and no change; otherwise cutoff and type are replaced and kResultOk is returned |
| Vst3Processor.FilterVST3.GetState | VST3/FilterVST3_Distribution/FilterVST3.cpp:141-151 | no stream gives kResultFalse; otherwise the encoded state is appended to the stream |
| Vst3Controller.RangeNormalized | VST3/FilterVST3Controller.cpp:26-34 | a range parameter's default normalised value maps back to its plain default: min + n·(max − min) = plain |
| Vst3Controller.InitialCutoffMisreported | VST3/FilterVST3Controller.cpp:30 | as written, the cutoff default stored on the [20, 20000] scale and read back ×20000 by `getState` (line 78) reports 19600000/19980 Hz, not 1000 Hz (see Findings) |
| Vst3Controller.InitialStateReportedOnOneScale | VST3/FilterVST3Controller.cpp:76-80 | with the default stored as 1000/20000, a controller that has loaded no state reports exactly 1000 Hz, type 0 and bypass off |
| Vst3Controller.FilterVST3Controller.ReportedState | VST3/FilterVST3Controller.cpp:78-80 | the fields `getState` reports are always valid |
| Vst3Controller.FilterVST3Controller.constructor | VST3/FilterVST3Controller.cpp:8-14 | a controller starts without parameters |
| Vst3Controller.FilterVST3Controller.Initialize | VST3/FilterVST3Controller.cpp:20-39 | the base result is passed through; when it is kResultTrue (= kResultOk) the three parameters are created with their normalised defaults, otherwise nothing is created |
| Vst3Controller.FilterVST3Controller.SetComponentState | VST3/FilterVST3Controller.cpp:46-65 | no stream or too short a stream gives kResultFalse and no change; otherwise the three parameters take the normalised cutoff, the type and the bypass |
| Vst3Controller.FilterVST3Controller.SetState | VST3/FilterVST3Controller.cpp:67-70 | restoring the controller's own state behaves exactly like `setComponentState`: rejection without change, or the three parameters loaded |
| Vst3Controller.FilterVST3Controller.GetState | VST3/FilterVST3Controller.cpp:72-87 | no stream gives kResultFalse; otherwise the reported fields are appended as a controller state |
| ReaScriptFilter.NormalizeCutoff | ReaScript/filter_reascript.py:28 | the cutoff's normalised value n satisfies 50 + n·7950 = f, and n lies in [0, 1] exactly when f lies in [50, 8000] |
| ReaScriptFilter.DenormalizeCutoff | ReaScript/filter_reascript.py:63 | the inverse mapping: normalising its result gives back the host value, and the range statement holds in both directions |
| ReaScriptFilter.ChannelCount | ReaScript/filter_reascript.py:67 | the number of channels processed is `min(num_channels, 2)` and never negative |
| ReaScriptFilter.FilterReaScript.constructor | ReaScript/filter_reascript.py:10-17 | cutoff 1000 Hz, low-pass, 44100 Hz, two cleared channels |
| ReaScriptFilter.FilterReaScript.ApplyLowPassFilter | ReaScript/filter_reascript.py:38-43 | the channel's stored output becomes one low-pass `Step`'s output; every other list entry is unchanged |
| ReaScriptFilter.FilterReaScript.ApplyHighPassFilter | ReaScript/filter_reascript.py:45-51 | the channel's stored input and output become one high-pass `Step`; every other entry is unchanged |
| ReaScriptFilter.FilterReaScript.ProcessFrame | ReaScript/filter_reascript.py:67-71 | one frame: sample i of each processed channel is replaced by one `Step` from that channel's memory |
| ReaScriptFilter.FilterReaScript.FilterFrame | ReaScript/filter_reascript.py:66-71 | after frame i every processed channel's first i+1 samples are its `Outputs` and its memory is `Run` over them |
| ReaScriptFilter.FilterReaScript.FilterBlock | ReaScript/filter_reascript.py:66-71 | frame-major processing leaves each channel's prefix equal to `Outputs` of its old samples from its own memory and its memory at `Run` over them; with no frames every memory is unchanged |
| ReaScriptFilter.FilterReaScript.ProcessSamples | ReaScript/filter_reascript.py:53-73 | the host's type is truncated and its normalised cutoff denormalised; each processed channel holds `Outputs` from its old memory; an empty `samples[0]` leaves both memories unchanged; the rest is untouched; the samples are returned |
| HostBridge.Column | plugin_host_bridge.py:230 | `samples[:, j]` holds entry j of each frame |
| HostBridge.Stack | plugin_host_bridge.py:232 | `column_stack` makes frame i equal to [left[i], right[i]] |
| HostBridge.SharedStereo | plugin_host_bridge.py:227-232 | column 0 is filtered from the plug-in's memory, and column 1 from the memory left after column 0 |
| HostBridge.SharedStereoIsConcatenatedMono | plugin_host_bridge.py:227-232 | stereo processing equals filtering the left column followed by the right column as one mono stream |
| HostBridge.SharedStereoOneFrame | plugin_host_bridge.py:230-231 | for one low-pass frame from cleared memory, the right output is (1−α)·r + α·(1−α)·l |
| HostBridge.SharedStereoLeaksLeftIntoRight | plugin_host_bridge.py:230-231 | two blocks with the same right column but different left columns give different right outputs (see Findings) |
| HostBridge.IndependentStereo | plugin_host_bridge.py:227-232 | corrected stereo processing returns one frame per input frame, two samples each |
| HostBridge.IndependentStereoSeparatesChannels | plugin_host_bridge.py:227-232 | with separate memories the right output depends only on the right column, and each column is `Outputs` of its input |
| HostBridge.FilterPlugin.constructor | plugin_host_bridge.py:184-191 | cutoff 1000 Hz, "lowpass", 44100 Hz, cleared memory |
| HostBridge.FilterPlugin.ApplyLowPassFilter | plugin_host_bridge.py:200-205 | the memory becomes one low-pass `Step` and the result is its output |
| HostBridge.FilterPlugin.ApplyHighPassFilter | plugin_host_bridge.py:207-213 | the memory becomes one high-pass `Step` and the result is its output |
| HostBridge.FilterPlugin.ProcessMono | plugin_host_bridge.py:215-225 | the result is `Outputs` of the samples for the plug-in's type; the memory becomes `Run` over them |
| HostBridge.FilterPlugin.ProcessStereo | plugin_host_bridge.py:227-234 | a 2-D block gives `SharedStereo` and leaves the memory after both columns; a 1-D block is processed as mono |
| HostBridge.PluginHostBridge.constructor | plugin_host_bridge.py:14-21 | the bridge owns a fresh `FilterPlugin` |
| HostBridge.PluginHostBridge.UpdateParameters | plugin_host_bridge.py:147-156 | a present cutoff is stored without clamping; a present type is stored and always clears the memory; absent keys change nothing |
| HostBridge.PluginHostBridge.ProcessAudioBlock | plugin_host_bridge.py:128-145 | a 1-D block gives `Outputs` and a 2-D block `SharedStereo`; the plug-in's memory afterwards is `Run` over the samples (over column 0 then column 1 for 2-D), which the next block starts from; the reported sample rate is not used |
| AudioFilter.AudioFilterPlugin.constructor | audio_filter_plugin.py:15-41 | cutoff 1000 Hz, "lowpass", cleared memory; the rate is 44100 |
| AudioFilter.AudioFilterPlugin.ApplyLowPassFilter | audio_filter_plugin.py:53-58 | the memory becomes one low-pass `Step` at 44100 Hz and the result is its output |
| AudioFilter.AudioFilterPlugin.ApplyHighPassFilter | audio_filter_plugin.py:60-66 | the memory becomes one high-pass `Step` at 44100 Hz and the result is its output |
| AudioFilter.AudioFilterPlugin.ProcessAudioChunk | audio_filter_plugin.py:68-82 | the result is `Outputs` of the chunk for the plug-in's type, continuing from the memory left by the previous chunk |
| AudioFilter.AudioFilterPlugin.UpdateCutoffFrequency | audio_filter_plugin.py:149-152 | the slider's value becomes the cutoff; nothing else changes |
| AudioFilter.AudioFilterPlugin.UpdateFilterType | audio_filter_plugin.py:154-159 | the memory is cleared; the type and cutoff are unchanged |
| AudioFilter.AudioFilterPlugin.SetFilterType | audio_filter_plugin.py:316-319 | the type is replaced and the memory is cleared |
| FilterDemo.ApplyLowPassFilter | filter_demo.py:26-38 | the result is `Outputs` of the low-pass filter at 44100 Hz from cleared memory |
| FilterDemo.ApplyHighPassFilter | filter_demo.py:40-54 | the result is `Outputs` of the high-pass filter at 44100 Hz from cleared memory |

## Left out

- Audio I/O, GUI (tkinter, plots), sockets, JSON framing, threads and the host registration code are not modelled. They move no filter state that the model does not already pass in as a parameter.
- SDK and framework base classes (`AudioEffect::setActive`, `setupProcessing`, `EditController::initialize`) are represented only by their result, which the methods take as a `baseResult` parameter.
- Floating-point rounding, NaN and infinity are not modelled; samples and coefficients are reals. The source's divisions by zero become `AlphaDefined` preconditions.
- OnePole.LowPassAlpha: requires sr ≠ 0 and fc + sr ≠ 0. At those inputs the Python variants raise `ZeroDivisionError`, and the C++ variants compute an IEEE infinity or NaN (at sr = 0 and fc > 0 the float coefficient becomes 0). Neither outcome is modelled.
- OnePole.HighPassAlpha: requires fc + sr ≠ 0. There the Python variants raise and the C++ variants produce infinity or NaN; neither is modelled.
- The bit pattern of a float in the VST3 stream is not modelled: a float is one opaque 4-octet field. Reading a float from octets that were written as an int32 yields 0.0 in the model.
- Vst3Controller.FilterVST3Controller.SetComponentState: the SDK's clamping of normalised values to [0, 1] inside `setNormalized` is not modelled; the parameter cell stores what it is given.
- Numeric.TruncateToInt: C++'s undefined behaviour when a float outside the `int` range is converted is not modelled; the result is an unbounded integer.
- The AudioUnit stream format is modelled by its sample rate only. Its other fields (format id, flags, channel and byte layout) are copied in and out unread, and the filter never consults them.
- The AudioUnit parameter-list property, `GetPropertyInfo`, `GetParameterInfo` and the component dispatch table are not modelled. They only describe the unit to its host and change no filter state.
- The VST3 `initialize`/`terminate` bus set-up is not modelled; `Process` takes the host's buffers as arguments.
- AudioUnitFilter.FilterAudioUnit.Render: requires at most two buffers and pairwise distinct buffers; the source indexes two-element arrays and writes in place.
- Vst3Processor.FilterVST3.Process: requires that each output buffer is distinct from the other channels' buffers; in-place processing on the same channel is allowed.
- Vst3Processor.FilterVST3.Process: requires the output bus to have at least min(input channels, 2) channel buffers. The source indexes the output bus with the input's channel number and does not check its size; a smaller output bus is not modelled.
- ReaScriptFilter.FilterReaScript.ProcessSamples: requires a non-empty sample list, at least `min(num_channels, 2)` channels, and each of those channels at least as long as `samples[0]`. Python raises `IndexError` where one of those fails; the length clause is the one that guards the inner loop's index `samples[channel][i]`.
- ReaScriptFilter.FilterReaScript.ProcessSamples: also requires the processed channels to be distinct buffers. That is not a Python error. If channel 1 aliases channel 0, the script filters the same buffer twice in place, and channel 1 reads channel 0's fresh outputs. The model excludes aliased buffers and does not capture that double filtering.
- REAPER's `register_parameters` and `process_audio` (which does nothing) are not modelled; host parameter values are passed in as `HostParams`.
- HostBridge.FilterPlugin.ProcessStereo: requires every frame of a 2-D block to have at least two columns. With one column the source filters column 0, which advances the shared memory, and then raises `IndexError` at `samples[:, 1]`; that partial update before the exception is not modelled.
- HostBridge.PluginHostBridge.ProcessAudioBlock: requires the same two columns of a 2-D block, for the same reason as `ProcessStereo`.
- HostBridge.PluginHostBridge.ProcessAudioBlock: the conversion of the block to `float32` and numpy arrays of more than two dimensions are not modelled. A missing `audio_data` key, which raises in the source, is excluded by taking the block as an argument.
- OnePole.LowPassApproaches: states convergence as strict shrinking of the distance at every sample, together with the closed form c·(1 − αⁿ) in OnePole.LowPassStepResponse, rather than as an ε–N limit.
- OnePole.HighPassDecays: states decay as a strictly decreasing magnitude, together with the closed form αⁿ·c, rather than as a limit.
- The demo's signal generation, FFT and plotting are not modelled, and neither is its unused `cutoff_frequency` field. `test_setup.py` is not part of this model.

## Findings

The plug-in classes keep the behaviour as written. The corrected definitions stand beside them and carry the intended property.

| source | as written | input that shows it | evidently intended | confidence | as-written member | corrected member |
|---|---|---|---|---|---|---|
| VST3/FilterVST3Controller.cpp:56-58 | `setComponentState` reads three fields (cutoff, type, bypass), but the processor's `getState` (VST3/FilterVST3_Distribution/FilterVST3.cpp:147-148) writes only two | any processor state, e.g. cutoff 1000.0, type 0: 8 octets, the third read fails and the controller returns kResultFalse | the controller picks up the processor's cutoff and type, with bypass defaulting to off | high; not executed | Vst3State.ProcessorStateRejectedByController | Vst3State.ComponentStateFromProcessor |
| plugin_host_bridge.py:230-231 | both stereo columns go through the same `prev_input`/`prev_output`, so the right channel starts from the left channel's final memory | low-pass with α = 0.5 from cleared memory: frames [[1.0, 0.0]] and [[0.0, 0.0]] have the same right column but give right outputs 0.25 and 0.0 | each channel keeps its own memory, as the AudioUnit, VST3 and ReaScript variants do | medium; not executed | HostBridge.SharedStereoLeaksLeftIntoRight | HostBridge.IndependentStereoSeparatesChannels |
| VST3/FilterVST3Controller.cpp:30 | `initialize` creates the cutoff `RangeParameter` on [20, 20000] with default 1000, which normalises to 980/19980; `getState` (line 78) reads the normalised value back as ×20000 | a controller that has loaded no state: `getState` reports 19600000/19980 ≈ 981.0 Hz | the controller reports its 1000 Hz default, as the processor does | high; not executed | Vst3Controller.InitialCutoffMisreported | Vst3Controller.InitialStateReportedOnOneScale |
