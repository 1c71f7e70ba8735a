/**
  The VST3 audio processor `FilterVST3`: a stereo one-pole filter whose
  per-channel memory lives in two fixed two-slot arrays, reset on
  activation, with a two-field little-endian state.
*/
module Vst3Processor {
  import opened Wrappers
  import opened OnePole
  import opened Vst3State

  class FilterVST3 {
    var sampleRate: real
    var cutoffFreq: real
    var filterType: int
    /** Per-channel last output and last input (two channels). */
    const lastOutput: array<real>
    const lastInput: array<real>

    /** The two memory arrays have two slots each and are distinct; the type is a 32-bit integer. */
    predicate Valid()
      reads this
    {
      lastOutput.Length == 2 && lastInput.Length == 2 && lastOutput != lastInput && IsInt32(filterType)
    }

    /** Channel `c`'s filter memory. */
    function Mem(c: nat): Memory
      requires lastOutput.Length == 2 && lastInput.Length == 2 && c < 2
      reads lastOutput, lastInput
    {
      Memory(lastInput[c], lastOutput[c])
    }

    predicate IsCleared()
      requires lastOutput.Length == 2 && lastInput.Length == 2
      reads lastOutput, lastInput
    {
      Mem(0) == Cleared && Mem(1) == Cleared
    }

    /** The recurrence `process` runs: type 0 is low-pass, anything else high-pass. */
    function Kind(): Kind
      reads this
    {
      KindOfCode(filterType)
    }

    /** The coefficient of the current kind, cutoff and sample rate. */
    function Coefficient(): real
      requires AlphaDefined(Kind(), cutoffFreq, sampleRate)
      reads this
    {
      Alpha(Kind(), cutoffFreq, sampleRate)
    }

    /** A new processor: 44100 Hz, cutoff 1000 Hz, low-pass, all four memory cells 0. */
    constructor ()
      ensures Valid() && fresh(lastOutput) && fresh(lastInput)
      ensures sampleRate == 44100.0 && cutoffFreq == 1000.0 && filterType == 0
      ensures IsCleared()
    {
      sampleRate := 44100.0;
      cutoffFreq := 1000.0;
      filterType := 0;
      var outputs := new real[2];
      var inputs := new real[2];
      for i := 0 to 2
        invariant forall j :: 0 <= j < i ==> outputs[j] == 0.0 && inputs[j] == 0.0
      {
        outputs[i] := 0.0;
        inputs[i] := 0.0;
      }
      lastOutput := outputs;
      lastInput := inputs;
    }

    /**
      Activation clears both channels' memory; deactivation leaves it. The
      result is the base class's, passed in as `baseResult`.
    */
    method SetActive(state: bool, baseResult: TResult) returns (result: TResult)
      requires Valid()
      modifies lastOutput, lastInput
      ensures result == baseResult
      ensures state ==> IsCleared()
      ensures !state ==> unchanged(lastOutput, lastInput)
    {
      if state {
        for i := 0 to 2
          invariant forall j :: 0 <= j < i ==> lastOutput[j] == 0.0 && lastInput[j] == 0.0
        {
          lastOutput[i] := 0.0;
          lastInput[i] := 0.0;
        }
      }
      result := baseResult;
    }

    /** Takes the host's sample rate as is, with no range check; the result is the base class's. */
    method SetupProcessing(newSampleRate: real, baseResult: TResult) returns (result: TResult)
      modifies this
      ensures sampleRate == newSampleRate && result == baseResult
      ensures cutoffFreq == old(cutoffFreq) && filterType == old(filterType)
    {
      sampleRate := newSampleRate;
      result := baseResult;
    }

    /** One low-pass sample on channel `channel`: only that channel's last output changes. */
    method ApplyLowPassFilter(input: real, channel: nat) returns (output: real)
      requires Valid() && channel < 2 && LowPassDefined(cutoffFreq, sampleRate)
      modifies lastOutput
      ensures Mem(channel) == Step(LowPass, LowPassAlpha(cutoffFreq, sampleRate), old(Mem(channel)), input)
      ensures output == Mem(channel).prevOutput
      ensures lastOutput[1 - channel] == old(lastOutput[1 - channel])
    {
      var alpha := 1.0 / (1.0 + cutoffFreq / sampleRate);
      output := (1.0 - alpha) * input + alpha * lastOutput[channel];
      lastOutput[channel] := output;
    }

    /** One high-pass sample on channel `channel`: only that channel's memory changes. */
    method ApplyHighPassFilter(input: real, channel: nat) returns (output: real)
      requires Valid() && channel < 2 && HighPassDefined(cutoffFreq, sampleRate)
      modifies lastOutput, lastInput
      ensures Mem(channel) == Step(HighPass, HighPassAlpha(cutoffFreq, sampleRate), old(Mem(channel)), input)
      ensures output == Mem(channel).prevOutput
      ensures lastOutput[1 - channel] == old(lastOutput[1 - channel])
      ensures lastInput[1 - channel] == old(lastInput[1 - channel])
    {
      var alpha := cutoffFreq / (cutoffFreq + sampleRate);
      output := alpha * (lastOutput[channel] + input - lastInput[channel]);
      lastInput[channel] := input;
      lastOutput[channel] := output;
    }

    /**
      The per-sample loop of `Process` for one channel: the first
      `numSamples` samples of `outputBuffer` become the filter's outputs for
      those of `inputBuffer`, which may be the same buffer. Channel
      `channel`'s memory advances over them and nothing else changes.
    */
    method ProcessChannel(inputBuffer: array<real>, outputBuffer: array<real>, channel: nat, numSamples: nat)
      requires Valid() && channel < 2
      requires numSamples <= inputBuffer.Length && numSamples <= outputBuffer.Length
      requires outputBuffer != lastOutput && outputBuffer != lastInput
      requires inputBuffer != lastOutput && inputBuffer != lastInput
      requires 0 < numSamples ==> AlphaDefined(Kind(), cutoffFreq, sampleRate)
      modifies outputBuffer, lastOutput, lastInput
      ensures forall i :: numSamples <= i < outputBuffer.Length ==> outputBuffer[i] == old(outputBuffer[i])
      ensures Mem(1 - channel) == old(Mem(1 - channel))
      ensures numSamples == 0 ==> unchanged(outputBuffer, lastOutput, lastInput)
      ensures 0 < numSamples ==>
        outputBuffer[..numSamples] == Outputs(Kind(), Coefficient(), old(Mem(channel)), old(inputBuffer[..numSamples]))
        && Mem(channel) == Run(Kind(), Coefficient(), old(Mem(channel)), old(inputBuffer[..numSamples]))
    {
      ghost var xs := inputBuffer[..numSamples];
      ghost var m0 := Mem(channel);
      ghost var k := Kind();
      ghost var a := if 0 < numSamples then Coefficient() else 0.0;
      var sample := 0;
      while sample < numSamples
        invariant sample <= numSamples
        invariant outputBuffer[..sample] == Outputs(k, a, m0, xs[..sample])
        invariant Mem(channel) == Run(k, a, m0, xs[..sample])
        invariant forall i :: sample <= i < numSamples ==> inputBuffer[i] == xs[i]
        invariant forall i :: numSamples <= i < outputBuffer.Length ==> outputBuffer[i] == old(outputBuffer[i])
        invariant Mem(1 - channel) == old(Mem(1 - channel))
        invariant numSamples == 0 ==> unchanged(outputBuffer, lastOutput, lastInput)
      {
        var inputSample := inputBuffer[sample];
        ghost var before := outputBuffer[..sample];
        var outputSample;
        if filterType == 0 {
          outputSample := ApplyLowPassFilter(inputSample, channel);
        } else {
          outputSample := ApplyHighPassFilter(inputSample, channel);
        }
        OutputsExtend(k, a, m0, xs, sample);
        outputBuffer[sample] := outputSample;
        assert outputBuffer[..sample + 1] == before + [outputSample];
        sample := sample + 1;
      }
      assert xs[..numSamples] == xs;
    }

    /**
      Filters the first `numSamples` samples of each of the first
      min(numChannels, 2) channels of input bus 0 into output bus 0, where
      `inputs` and `outputs` are those buses' channel buffers. With no input
      or no output bus nothing changes. There is no "not active" guard, and
      the result is always kResultTrue (kResultOk).
    */
    method Process(numInputs: nat, numOutputs: nat, inputs: seq<array<real>>, outputs: seq<array<real>>, numSamples: nat)
      returns (result: TResult)
      requires Valid()
      requires 0 < numInputs && 0 < numOutputs ==> Min(|inputs|, 2) <= |outputs|
      requires forall c :: 0 <= c < |inputs| ==> numSamples <= inputs[c].Length
      requires forall c :: 0 <= c < |outputs| ==> numSamples <= outputs[c].Length
      requires forall c :: 0 <= c < |outputs| ==> outputs[c] != lastOutput && outputs[c] != lastInput
      requires forall c :: 0 <= c < |inputs| ==> inputs[c] != lastOutput && inputs[c] != lastInput
      requires forall c, d :: 0 <= c < d < |outputs| ==> outputs[c] != outputs[d]
      requires forall c, d :: 0 <= c < |outputs| && 0 <= d < |inputs| && c != d ==> outputs[c] != inputs[d]
      requires 0 < numInputs && 0 < numOutputs && 0 < numSamples && inputs != [] ==> AlphaDefined(Kind(), cutoffFreq, sampleRate)
      modifies lastOutput, lastInput, set c | 0 <= c < |outputs| && c < 2 :: outputs[c]
      ensures result == ResultOk
      ensures numInputs == 0 || numOutputs == 0 || numSamples == 0 ==> unchanged(lastOutput, lastInput)
      ensures forall c :: 0 <= c < |outputs| ==>
        forall i :: numSamples <= i < outputs[c].Length ==> outputs[c][i] == old(outputs[c][i])
      ensures numInputs == 0 || numOutputs == 0 ==> forall c :: 0 <= c < |outputs| ==> outputs[c][..] == old(outputs[c][..])
      ensures forall c :: Min(|inputs|, 2) <= c < |outputs| ==> outputs[c][..] == old(outputs[c][..])
      ensures forall c :: Min(|inputs|, 2) <= c < 2 ==> Mem(c) == old(Mem(c))
      ensures 0 < numInputs && 0 < numOutputs && 0 < numSamples ==> forall c :: 0 <= c < Min(|inputs|, 2) ==>
        outputs[c][..numSamples] == Outputs(Kind(), Coefficient(), old(Mem(c)), old(inputs[c][..numSamples]))
        && Mem(c) == Run(Kind(), Coefficient(), old(Mem(c)), old(inputs[c][..numSamples]))
    {
      if 0 < numInputs && 0 < numOutputs {
        var numChannels := |inputs|;
        var channel := 0;
        while channel < numChannels && channel < 2
          invariant channel <= Min(numChannels, 2)
          invariant forall c :: 0 <= c < |outputs| ==>
            forall i :: numSamples <= i < outputs[c].Length ==> outputs[c][i] == old(outputs[c][i])
          invariant forall c :: channel <= c < |outputs| ==> outputs[c][..] == old(outputs[c][..])
          invariant forall c :: channel <= c < |inputs| ==> inputs[c][..] == old(inputs[c][..])
          invariant forall c :: channel <= c < 2 ==> Mem(c) == old(Mem(c))
          invariant numSamples == 0 ==> unchanged(lastOutput, lastInput)
          invariant 0 < numSamples ==> forall c :: 0 <= c < channel ==>
            outputs[c][..numSamples] == Outputs(Kind(), Coefficient(), old(Mem(c)), old(inputs[c][..numSamples]))
            && Mem(c) == Run(Kind(), Coefficient(), old(Mem(c)), old(inputs[c][..numSamples]))
        {
          ProcessChannel(inputs[channel], outputs[channel], channel, numSamples);
          channel := channel + 1;
        }
      }
      result := ResultOk;
    }

    /**
      Reads cutoff (float) then type (int32). A missing stream or a failed
      read gives kResultFalse and changes nothing; otherwise both are assigned
      as read, with no clamping and no memory reset.
    */
    method SetState(state: Option<Stream>) returns (result: TResult)
      requires Valid()
      modifies this
      ensures Valid()
      ensures sampleRate == old(sampleRate)
      ensures state.None? || DecodeProcessorState(state.value).None? ==>
        result == ResultFalse && cutoffFreq == old(cutoffFreq) && filterType == old(filterType)
      ensures state.Some? && DecodeProcessorState(state.value).Some? ==>
        result == ResultOk && (cutoffFreq, filterType) == DecodeProcessorState(state.value).value
    {
      if state.None? {
        return ResultFalse;
      }
      var cutoffRead := ReadFloat(state.value);
      if cutoffRead.None? {
        return ResultFalse;
      }
      var typeRead := ReadInt32(cutoffRead.value.1);
      if typeRead.None? {
        return ResultFalse;
      }
      cutoffFreq := cutoffRead.value.0;
      filterType := typeRead.value.0;
      result := ResultOk;
    }

    /** Appends cutoff (float) then type (int32) to the stream; a missing stream gives kResultFalse. */
    method GetState(state: Option<Stream>) returns (result: TResult, written: Option<Stream>)
      requires Valid()
      ensures state.None? ==> result == ResultFalse && written.None?
      ensures state.Some? ==> result == ResultOk && written == Some(state.value + EncodeProcessorState(cutoffFreq, filterType))
    {
      if state.None? {
        return ResultFalse, None;
      }
      var s := state.value + FloatOctets(cutoffFreq);
      s := s + Int32Octets(filterType);
      assert s == state.value + EncodeProcessorState(cutoffFreq, filterType);
      result, written := ResultOk, Some(s);
    }
  }

  function Min(a: int, b: int): int
  {
    if a < b then a else b
  }
}
