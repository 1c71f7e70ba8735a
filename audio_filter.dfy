/**
  The stand-alone Python plug-in `AudioFilterPlugin`: a mono one-pole filter
  at a fixed 44100 Hz whose type is the string "lowpass" or anything else,
  applied chunk by chunk with its memory carried across chunks.
*/
module AudioFilter {
  import opened OnePole

  /** The plug-in's fixed sample rate. */
  const Rate: real := 44100.0

  class AudioFilterPlugin {
    var cutoffFrequency: real
    var filterType: string
    var prevInput: real
    var prevOutput: real

    /** The filter's memory. */
    function Mem(): Memory
      reads this
    {
      Memory(prevInput, prevOutput)
    }

    /** The recurrence the filter runs: "lowpass" is low-pass, any other string high-pass. */
    function Kind(): Kind
      reads this
    {
      KindOfName(filterType)
    }

    /** The coefficient of the current kind and cutoff at the fixed rate. */
    function Coefficient(): real
      requires AlphaDefined(Kind(), cutoffFrequency, Rate)
      reads this
    {
      Alpha(Kind(), cutoffFrequency, Rate)
    }

    /** A new plug-in: cutoff 1000 Hz, "lowpass", memory 0. */
    constructor ()
      ensures cutoffFrequency == 1000.0 && filterType == "lowpass" && Mem() == Cleared
    {
      cutoffFrequency := 1000.0;
      filterType := "lowpass";
      prevInput := 0.0;
      prevOutput := 0.0;
    }

    /** One low-pass sample: only the last output changes. */
    method ApplyLowPassFilter(input: real) returns (output: real)
      requires LowPassDefined(cutoffFrequency, Rate)
      modifies this
      ensures cutoffFrequency == old(cutoffFrequency) && filterType == old(filterType)
      ensures Mem() == Step(LowPass, LowPassAlpha(cutoffFrequency, Rate), old(Mem()), input)
      ensures output == prevOutput
    {
      var alpha := AlphaOfName(cutoffFrequency, Rate, "lowpass");
      output := (1.0 - alpha) * input + alpha * prevOutput;
      prevOutput := output;
    }

    /** One high-pass sample: the last input becomes `input` and the last output the result. */
    method ApplyHighPassFilter(input: real) returns (output: real)
      requires HighPassDefined(cutoffFrequency, Rate)
      modifies this
      ensures cutoffFrequency == old(cutoffFrequency) && filterType == old(filterType)
      ensures Mem() == Step(HighPass, HighPassAlpha(cutoffFrequency, Rate), old(Mem()), input)
      ensures output == prevOutput
    {
      var alpha := AlphaOfName(cutoffFrequency, Rate, "highpass");
      output := alpha * (prevOutput + input - prevInput);
      prevInput := input;
      prevOutput := output;
    }

    /**
      The sample loop of `process_audio_chunk`: one output per input sample,
      in order, from the memory the previous chunk left behind.
    */
    method ProcessAudioChunk(audio: seq<real>) returns (filtered: seq<real>)
      requires 0 < |audio| ==> AlphaDefined(Kind(), cutoffFrequency, Rate)
      modifies this
      ensures cutoffFrequency == old(cutoffFrequency) && filterType == old(filterType)
      ensures |audio| == 0 ==> filtered == [] && Mem() == old(Mem())
      ensures 0 < |audio| ==>
        filtered == Outputs(Kind(), Coefficient(), old(Mem()), audio)
        && Mem() == Run(Kind(), Coefficient(), old(Mem()), audio)
    {
      ghost var m0 := Mem();
      ghost var k := Kind();
      ghost var a := if 0 < |audio| then Coefficient() else 0.0;
      filtered := seq(|audio|, _ => 0.0);
      var i := 0;
      while i < |audio|
        invariant i <= |audio| && |filtered| == |audio|
        invariant cutoffFrequency == old(cutoffFrequency) && filterType == old(filterType)
        invariant filtered[..i] == Outputs(k, a, m0, audio[..i])
        invariant Mem() == Run(k, a, m0, audio[..i])
      {
        var output;
        if filterType == "lowpass" {
          output := ApplyLowPassFilter(audio[i]);
        } else {
          output := ApplyHighPassFilter(audio[i]);
        }
        RewriteNext(k, a, m0, audio, filtered, i);
        filtered := filtered[i := output];
        i := i + 1;
      }
      assert audio[..i] == audio && filtered[..i] == filtered;
    }

    /** The slider's value becomes the cutoff as given, with no clamping. */
    method UpdateCutoffFrequency(value: real)
      modifies this
      ensures cutoffFrequency == value
      ensures filterType == old(filterType) && Mem() == old(Mem())
    {
      cutoffFrequency := value;
    }

    /** A type change clears the memory. */
    method UpdateFilterType()
      modifies this
      ensures Mem() == Cleared
      ensures cutoffFrequency == old(cutoffFrequency) && filterType == old(filterType)
    {
      prevInput := 0.0;
      prevOutput := 0.0;
    }

    /** Stores the new type and then clears the memory, even when the type is unchanged. */
    method SetFilterType(newType: string)
      modifies this
      ensures filterType == newType && Mem() == Cleared
      ensures cutoffFrequency == old(cutoffFrequency)
    {
      filterType := newType;
      UpdateFilterType();
    }
  }
}
