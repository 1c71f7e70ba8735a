/**
  The AudioUnit effect `FilterAudioUnit`: a stereo one-pole filter whose
  per-channel memory lives in two fixed two-slot arrays, with an
  "initialised" lifecycle flag, a clamped cutoff parameter, an integer
  filter-type parameter and a sample-rate property.
*/
module AudioUnitFilter {
  import opened OnePole
  import opened Numeric

  /** The status codes the unit returns (noErr and the kAudioUnitErr_* codes it uses). */
  datatype OSStatus = NoErr | InvalidParameter | Uninitialized | InvalidPropertyValue

  /** Parameter identifiers. */
  const ParamFilterType: int := 0
  const ParamCutoffFrequency: int := 1

  /** Byte size of the Float64 sample-rate property. */
  const SampleRatePropertySize: nat := 8

  /** Byte size of an AudioStreamBasicDescription: one Float64 and eight UInt32 fields. */
  const StreamFormatPropertySize: nat := 40

  const MinCutoff: real := 50.0
  const MaxCutoff: real := 8000.0

  /** The cutoff parameter's range limit: max(50, min(8000, v)). */
  function ClampCutoff(v: real): (r: real)
    ensures MinCutoff <= r <= MaxCutoff
    ensures MinCutoff <= v <= MaxCutoff ==> r == v
    ensures v < MinCutoff ==> r == MinCutoff
    ensures MaxCutoff < v ==> r == MaxCutoff
  {
    if v > MaxCutoff then MaxCutoff else if v < MinCutoff then MinCutoff else v
  }

  class FilterAudioUnit {
    var cutoffFrequency: real
    var filterType: int
    /** Per-channel last output and last input (two channels). */
    const prevOutput: array<real>
    const prevInput: array<real>
    var sampleRate: real
    var initialized: bool
    /** The sample rate recorded in the stream format. */
    var formatSampleRate: real

    /** The two state arrays have two slots each and are distinct. */
    predicate Valid()
    {
      prevOutput.Length == 2 && prevInput.Length == 2 && prevOutput != prevInput
    }

    /** Channel `c`'s filter memory. */
    function Mem(c: nat): Memory
      requires Valid() && c < 2
      reads prevOutput, prevInput
    {
      Memory(prevInput[c], prevOutput[c])
    }

    /** Both channels hold the cleared memory. */
    predicate IsCleared()
      requires Valid()
      reads prevOutput, prevInput
    {
      Mem(0) == Cleared && Mem(1) == Cleared
    }

    /** The recurrence `Render` runs: type 0 is low-pass, anything else high-pass. */
    function Kind(): Kind
      reads this
    {
      KindOfCode(filterType)
    }

    /** The coefficient `Render` uses for the current type, cutoff and sample rate. */
    function Coefficient(): real
      requires AlphaDefined(Kind(), cutoffFrequency, sampleRate)
      reads this
    {
      Alpha(Kind(), cutoffFrequency, sampleRate)
    }

    /** A new unit: cutoff 1000 Hz, low-pass, 44100 Hz, not initialised, cleared memory. */
    constructor ()
      ensures Valid() && fresh(prevOutput) && fresh(prevInput)
      ensures cutoffFrequency == 1000.0 && filterType == 0 && sampleRate == 44100.0
      ensures formatSampleRate == 44100.0 && !initialized
      ensures IsCleared()
    {
      cutoffFrequency := 1000.0;
      filterType := 0;
      sampleRate := 44100.0;
      initialized := false;
      formatSampleRate := 44100.0;
      prevOutput := new real[2](_ => 0.0);
      prevInput := new real[2](_ => 0.0);
    }

    /** Zeroes both channels' memory. */
    method ResetFilter()
      requires Valid()
      modifies prevOutput, prevInput
      ensures IsCleared()
    {
      prevOutput[0] := 0.0;
      prevOutput[1] := 0.0;
      prevInput[0] := 0.0;
      prevInput[1] := 0.0;
    }

    /** Clears the memory only when the unit was not yet initialised; a second call changes nothing. */
    method Initialize() returns (status: OSStatus)
      requires Valid()
      modifies this, prevOutput, prevInput
      ensures status == NoErr && initialized
      ensures cutoffFrequency == old(cutoffFrequency) && filterType == old(filterType)
      ensures sampleRate == old(sampleRate) && formatSampleRate == old(formatSampleRate)
      ensures old(initialized) ==> unchanged(prevOutput, prevInput)
      ensures !old(initialized) ==> IsCleared()
    {
      if initialized {
        return NoErr;
      }
      ResetFilter();
      initialized := true;
      status := NoErr;
    }

    /** Clears the flag and nothing else. */
    method Uninitialize() returns (status: OSStatus)
      modifies this
      ensures status == NoErr && !initialized
      ensures cutoffFrequency == old(cutoffFrequency) && filterType == old(filterType)
      ensures sampleRate == old(sampleRate) && formatSampleRate == old(formatSampleRate)
    {
      initialized := false;
      status := NoErr;
    }

    /** The sample-rate case of GetProperty: the buffer must hold a Float64. */
    method GetSampleRateProperty(ioDataSize: nat) returns (status: OSStatus, value: real, size: nat)
      ensures ioDataSize < SampleRatePropertySize ==> status == InvalidPropertyValue && size == ioDataSize
      ensures SampleRatePropertySize <= ioDataSize ==>
        status == NoErr && value == sampleRate && size == SampleRatePropertySize
    {
      if ioDataSize < SampleRatePropertySize {
        return InvalidPropertyValue, 0.0, ioDataSize;
      }
      status, value, size := NoErr, sampleRate, SampleRatePropertySize;
    }

    /** The sample-rate case of SetProperty: any value is accepted, with no range check. */
    method SetSampleRateProperty(value: real, inDataSize: nat) returns (status: OSStatus)
      modifies this
      ensures inDataSize < SampleRatePropertySize ==> status == InvalidPropertyValue
      ensures inDataSize < SampleRatePropertySize ==> sampleRate == old(sampleRate) && formatSampleRate == old(formatSampleRate)
      ensures SampleRatePropertySize <= inDataSize ==> status == NoErr && sampleRate == value && formatSampleRate == value
      ensures cutoffFrequency == old(cutoffFrequency) && filterType == old(filterType) && initialized == old(initialized)
    {
      if inDataSize < SampleRatePropertySize {
        return InvalidPropertyValue;
      }
      sampleRate := value;
      formatSampleRate := sampleRate;
      status := NoErr;
    }

    /**
      The stream-format case of GetProperty: the buffer must hold a whole
      stream description. Of the description only its sample rate is modelled.
    */
    method GetStreamFormatProperty(ioDataSize: nat) returns (status: OSStatus, rate: real, size: nat)
      ensures ioDataSize < StreamFormatPropertySize ==> status == InvalidPropertyValue && size == ioDataSize
      ensures StreamFormatPropertySize <= ioDataSize ==>
        status == NoErr && rate == formatSampleRate && size == StreamFormatPropertySize
    {
      if ioDataSize < StreamFormatPropertySize {
        return InvalidPropertyValue, 0.0, ioDataSize;
      }
      status, rate, size := NoErr, formatSampleRate, StreamFormatPropertySize;
    }

    /**
      The stream-format case of SetProperty: a second way to set the sample
      rate. A whole description replaces the stream format, and its rate
      becomes the filter's rate, with no range check.
    */
    method SetStreamFormatProperty(rate: real, inDataSize: nat) returns (status: OSStatus)
      modifies this
      ensures inDataSize < StreamFormatPropertySize ==> status == InvalidPropertyValue
      ensures inDataSize < StreamFormatPropertySize ==> sampleRate == old(sampleRate) && formatSampleRate == old(formatSampleRate)
      ensures StreamFormatPropertySize <= inDataSize ==> status == NoErr && sampleRate == rate && formatSampleRate == rate
      ensures cutoffFrequency == old(cutoffFrequency) && filterType == old(filterType) && initialized == old(initialized)
    {
      if inDataSize < StreamFormatPropertySize {
        return InvalidPropertyValue;
      }
      formatSampleRate := rate;
      sampleRate := formatSampleRate;
      status := NoErr;
    }

    /** Reads a parameter; the filter type is reported as a float. */
    method GetParameter(id: int) returns (status: OSStatus, value: real)
      ensures id == ParamFilterType ==> status == NoErr && value == filterType as real
      ensures id == ParamCutoffFrequency ==> status == NoErr && value == cutoffFrequency
      ensures id != ParamFilterType && id != ParamCutoffFrequency ==> status == InvalidParameter
    {
      if id == ParamFilterType {
        return NoErr, filterType as real;
      } else if id == ParamCutoffFrequency {
        return NoErr, cutoffFrequency;
      }
      status, value := InvalidParameter, 0.0;
    }

    /**
      Writes a parameter. The type is truncated to an integer and always
      clears the memory, even when it is unchanged; the cutoff is clamped to
      [50, 8000]; an unknown identifier changes nothing.
    */
    method SetParameter(id: int, value: real) returns (status: OSStatus)
      requires Valid()
      modifies this, prevOutput, prevInput
      ensures sampleRate == old(sampleRate) && formatSampleRate == old(formatSampleRate) && initialized == old(initialized)
      ensures id == ParamFilterType ==>
        status == NoErr && filterType == TruncateToInt(value) && cutoffFrequency == old(cutoffFrequency) && IsCleared()
      ensures id == ParamCutoffFrequency ==>
        status == NoErr && cutoffFrequency == ClampCutoff(value) && filterType == old(filterType)
        && unchanged(prevOutput, prevInput)
      ensures id != ParamFilterType && id != ParamCutoffFrequency ==>
        status == InvalidParameter && unchanged(this, prevOutput, prevInput)
    {
      if id == ParamFilterType {
        filterType := TruncateToInt(value);
        ResetFilter();
        return NoErr;
      } else if id == ParamCutoffFrequency {
        cutoffFrequency := ClampCutoff(value);
        return NoErr;
      }
      status := InvalidParameter;
    }

    /** One low-pass sample on channel `channel`: only that channel's last output changes. */
    method ApplyLowPassFilter(input: real, channel: nat) returns (output: real)
      requires Valid() && channel < 2 && LowPassDefined(cutoffFrequency, sampleRate)
      modifies prevOutput
      ensures Mem(channel) == Step(LowPass, LowPassAlpha(cutoffFrequency, sampleRate), old(Mem(channel)), input)
      ensures output == Mem(channel).prevOutput
      ensures prevOutput[1 - channel] == old(prevOutput[1 - channel])
    {
      var alpha := AlphaOfCode(cutoffFrequency, sampleRate, 0);
      output := (1.0 - alpha) * input + alpha * prevOutput[channel];
      prevOutput[channel] := output;
    }

    /** One high-pass sample on channel `channel`: only that channel's memory changes. */
    method ApplyHighPassFilter(input: real, channel: nat) returns (output: real)
      requires Valid() && channel < 2 && HighPassDefined(cutoffFrequency, sampleRate)
      modifies prevOutput, prevInput
      ensures Mem(channel) == Step(HighPass, HighPassAlpha(cutoffFrequency, sampleRate), old(Mem(channel)), input)
      ensures output == Mem(channel).prevOutput
      ensures prevOutput[1 - channel] == old(prevOutput[1 - channel])
      ensures prevInput[1 - channel] == old(prevInput[1 - channel])
    {
      var alpha := AlphaOfCode(cutoffFrequency, sampleRate, 1);
      output := alpha * (prevOutput[channel] + input - prevInput[channel]);
      prevInput[channel] := input;
      prevOutput[channel] := output;
    }

    /**
      The per-sample loop of `Render` for one channel: the first `frames`
      samples of `channelData` become the filter's outputs, channel
      `channel`'s memory advances over them, and nothing else changes.
    */
    method RenderChannel(channelData: array<real>, channel: nat, frames: nat)
      requires Valid() && channel < 2 && frames <= channelData.Length
      requires channelData != prevOutput && channelData != prevInput
      requires 0 < frames ==> AlphaDefined(Kind(), cutoffFrequency, sampleRate)
      modifies channelData, prevOutput, prevInput
      ensures channelData[frames..] == old(channelData[frames..])
      ensures Mem(1 - channel) == old(Mem(1 - channel))
      ensures frames == 0 ==> unchanged(channelData, prevOutput, prevInput)
      ensures 0 < frames ==>
        channelData[..frames] == Outputs(Kind(), Coefficient(), old(Mem(channel)), old(channelData[..frames]))
        && Mem(channel) == Run(Kind(), Coefficient(), old(Mem(channel)), old(channelData[..frames]))
    {
      ghost var xs := channelData[..frames];
      ghost var m0 := Mem(channel);
      ghost var k := Kind();
      ghost var a := if 0 < frames then Coefficient() else 0.0;
      var sample := 0;
      while sample < frames
        invariant sample <= frames
        invariant channelData[..sample] == Outputs(k, a, m0, xs[..sample])
        invariant Mem(channel) == Run(k, a, m0, xs[..sample])
        invariant forall i :: sample <= i < frames ==> channelData[i] == xs[i]
        invariant forall i :: frames <= i < channelData.Length ==> channelData[i] == old(channelData[i])
        invariant Mem(1 - channel) == old(Mem(1 - channel))
        invariant frames == 0 ==> unchanged(channelData, prevOutput, prevInput)
      {
        var input := channelData[sample];
        ghost var before := channelData[..sample];
        var output;
        if filterType == 0 {
          output := ApplyLowPassFilter(input, channel);
        } else {
          output := ApplyHighPassFilter(input, channel);
        }
        OutputsExtend(k, a, m0, xs, sample);
        channelData[sample] := output;
        assert channelData[..sample + 1] == before + [output];
        sample := sample + 1;
      }
      assert xs[..frames] == xs;
    }

    /**
      Filters `frames` samples of every channel buffer in place. An
      uninitialised unit changes nothing. Otherwise buffer c's first `frames`
      samples become the filter's outputs for them, starting from channel c's
      memory, which ends as the memory after those samples; the rest of each
      buffer, and the memory of a channel without a buffer, is untouched.
      The state arrays have two slots, so at most two buffers can be given.
    */
    method Render(frames: nat, buffers: seq<array<real>>) returns (status: OSStatus)
      requires Valid() && |buffers| <= 2
      requires forall c :: 0 <= c < |buffers| ==> frames <= buffers[c].Length
      requires forall c, d :: 0 <= c < d < |buffers| ==> buffers[c] != buffers[d]
      requires forall c :: 0 <= c < |buffers| ==> buffers[c] != prevOutput && buffers[c] != prevInput
      requires initialized && 0 < frames && buffers != [] ==> AlphaDefined(Kind(), cutoffFrequency, sampleRate)
      modifies prevOutput, prevInput, set c | 0 <= c < |buffers| :: buffers[c]
      ensures !old(initialized) ==> status == Uninitialized && unchanged(prevOutput, prevInput)
      ensures !old(initialized) ==> forall c :: 0 <= c < |buffers| ==> buffers[c][..] == old(buffers[c][..])
      ensures old(initialized) ==> status == NoErr
      ensures forall c :: 0 <= c < |buffers| ==> buffers[c][frames..] == old(buffers[c][frames..])
      ensures forall c :: |buffers| <= c < 2 ==> Mem(c) == old(Mem(c))
      ensures frames == 0 ==> unchanged(prevOutput, prevInput)
      ensures old(initialized) && 0 < frames ==> forall c :: 0 <= c < |buffers| ==>
        buffers[c][..frames] == Outputs(Kind(), Coefficient(), old(Mem(c)), old(buffers[c][..frames]))
        && Mem(c) == Run(Kind(), Coefficient(), old(Mem(c)), old(buffers[c][..frames]))
    {
      if !initialized {
        return Uninitialized;
      }
      var channel := 0;
      while channel < |buffers|
        invariant channel <= |buffers|
        invariant forall c :: 0 <= c < |buffers| ==> buffers[c][frames..] == old(buffers[c][frames..])
        invariant forall c :: channel <= c < |buffers| ==> buffers[c][..] == old(buffers[c][..])
        invariant forall c :: channel <= c < 2 ==> Mem(c) == old(Mem(c))
        invariant frames == 0 ==> unchanged(prevOutput, prevInput)
        invariant 0 < frames ==> forall c :: 0 <= c < channel ==>
          buffers[c][..frames] == Outputs(Kind(), Coefficient(), old(Mem(c)), old(buffers[c][..frames]))
          && Mem(c) == Run(Kind(), Coefficient(), old(Mem(c)), old(buffers[c][..frames]))
      {
        RenderChannel(buffers[channel], channel, frames);
        channel := channel + 1;
      }
      status := NoErr;
    }
  }
}
