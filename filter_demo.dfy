/**
  The demonstration filters of `FilterDemo`: stateless signal-to-signal
  low-pass and high-pass filters at 44100 Hz, each starting from zero memory
  on every call.
*/
module FilterDemo {
  import opened OnePole

  /** The demo's sample rate. */
  const SampleRate: real := 44100.0

  /**
    Low-pass filters a whole signal from zero memory: a signal of the same
    length with y[i] = (1 - alpha) x[i] + alpha y[i-1] and y[-1] = 0.
  */
  method ApplyLowPassFilter(signal: seq<real>, cutoff: real) returns (filtered: seq<real>)
    requires LowPassDefined(cutoff, SampleRate)
    ensures filtered == Outputs(LowPass, LowPassAlpha(cutoff, SampleRate), Cleared, signal)
  {
    var alpha := AlphaOfName(cutoff, SampleRate, "lowpass");
    filtered := seq(|signal|, _ => 0.0);
    var prevOutput := 0.0;
    var i := 0;
    while i < |signal|
      invariant i <= |signal| && |filtered| == |signal|
      invariant filtered[..i] == Outputs(LowPass, alpha, Cleared, signal[..i])
      invariant prevOutput == Run(LowPass, alpha, Cleared, signal[..i]).prevOutput
    {
      RewriteNext(LowPass, alpha, Cleared, signal, filtered, i);
      var output := (1.0 - alpha) * signal[i] + alpha * prevOutput;
      assert output == Step(LowPass, alpha, Run(LowPass, alpha, Cleared, signal[..i]), signal[i]).prevOutput;
      filtered := filtered[i := output];
      prevOutput := output;
      i := i + 1;
    }
    assert signal[..i] == signal && filtered[..i] == filtered;
  }

  /**
    High-pass filters a whole signal from zero memory: a signal of the same
    length with y[i] = alpha (y[i-1] + x[i] - x[i-1]) and x[-1] = y[-1] = 0.
  */
  method ApplyHighPassFilter(signal: seq<real>, cutoff: real) returns (filtered: seq<real>)
    requires HighPassDefined(cutoff, SampleRate)
    ensures filtered == Outputs(HighPass, HighPassAlpha(cutoff, SampleRate), Cleared, signal)
  {
    var alpha := AlphaOfName(cutoff, SampleRate, "highpass");
    filtered := seq(|signal|, _ => 0.0);
    var prevInput := 0.0;
    var prevOutput := 0.0;
    var i := 0;
    while i < |signal|
      invariant i <= |signal| && |filtered| == |signal|
      invariant filtered[..i] == Outputs(HighPass, alpha, Cleared, signal[..i])
      invariant Memory(prevInput, prevOutput) == Run(HighPass, alpha, Cleared, signal[..i])
    {
      RewriteNext(HighPass, alpha, Cleared, signal, filtered, i);
      var output := alpha * (prevOutput + signal[i] - prevInput);
      assert Memory(signal[i], output) == Step(HighPass, alpha, Run(HighPass, alpha, Cleared, signal[..i]), signal[i]);
      filtered := filtered[i := output];
      prevInput := signal[i];
      prevOutput := output;
      i := i + 1;
    }
    assert signal[..i] == signal && filtered[..i] == filtered;
  }
}
