/**
  The REAPER script `FilterReaScript`: a stereo one-pole filter whose
  per-channel memory lives in two two-element lists, driven sample by sample
  across the channels, with the cutoff exchanged with the host as a value
  normalised over 50..8000 Hz.
*/
module ReaScriptFilter {
  import opened Wrappers
  import opened Numeric
  import opened OnePole

  const MinCutoff: real := 50.0
  const MaxCutoff: real := 8000.0

  /** The host's normalised cutoff parameter for a frequency: (f - 50) / (8000 - 50). */
  function NormalizeCutoff(frequency: real): (normalized: real)
    ensures MinCutoff + normalized * (MaxCutoff - MinCutoff) == frequency
    ensures 0.0 <= normalized <= 1.0 <==> MinCutoff <= frequency <= MaxCutoff
  {
    (frequency - MinCutoff) / (MaxCutoff - MinCutoff)
  }

  /**
    The frequency of a normalised cutoff parameter: 50 + p (8000 - 50). It
    inverts `NormalizeCutoff`, and [0, 1] maps onto [50, 8000].
  */
  function DenormalizeCutoff(normalized: real): (frequency: real)
    ensures NormalizeCutoff(frequency) == normalized
    ensures 0.0 <= normalized <= 1.0 <==> MinCutoff <= frequency <= MaxCutoff
  {
    MinCutoff + normalized * (MaxCutoff - MinCutoff)
  }

  /** The two parameter values the script reads from the host: filter type and normalised cutoff. */
  datatype HostParams = HostParams(filterType: real, cutoff: real)

  /** How many channels `process_samples` filters: min(numChannels, 2), and none for a negative count. */
  function ChannelCount(numChannels: int): (count: nat)
    ensures count <= 2
    ensures count == numChannels || (numChannels < 0 && count == 0) || (2 < numChannels && count == 2)
  {
    if numChannels < 0 then 0 else if numChannels < 2 then numChannels else 2
  }

  /** Channel `c`'s memory in the pair of per-channel lists. */
  function MemoryAt(prevInput: seq<real>, prevOutput: seq<real>, c: nat): Memory
    requires c < |prevInput| && c < |prevOutput|
  {
    Memory(prevInput[c], prevOutput[c])
  }

  class FilterReaScript {
    var cutoffFrequency: real
    var filterType: int
    var sampleRate: real
    /** Per-channel last output and last input (two channels). */
    var prevOutput: seq<real>
    var prevInput: seq<real>

    predicate Valid()
      reads this
    {
      |prevOutput| == 2 && |prevInput| == 2
    }

    /** Channel `c`'s filter memory. */
    function Mem(c: nat): Memory
      requires Valid() && c < 2
      reads this
    {
      MemoryAt(prevInput, prevOutput, c)
    }

    /** The recurrence the script runs: type 0 is low-pass, anything else high-pass. */
    function Kind(): Kind
      reads this
    {
      KindOfCode(filterType)
    }

    /** The coefficient of the current kind, cutoff and sample rate. */
    function Coefficient(): real
      requires AlphaDefined(Kind(), cutoffFrequency, sampleRate)
      reads this
    {
      Alpha(Kind(), cutoffFrequency, sampleRate)
    }

    /** A new script filter: cutoff 1000 Hz, low-pass, 44100 Hz, both channels' memory 0. */
    constructor ()
      ensures Valid()
      ensures cutoffFrequency == 1000.0 && filterType == 0 && sampleRate == 44100.0
      ensures Mem(0) == Cleared && Mem(1) == Cleared
    {
      cutoffFrequency := 1000.0;
      filterType := 0;
      sampleRate := 44100.0;
      prevOutput := [0.0, 0.0];
      prevInput := [0.0, 0.0];
    }

    /** One low-pass sample on channel `channel`: only that channel's last output changes. */
    method ApplyLowPassFilter(input: real, channel: nat) returns (output: real)
      requires Valid() && channel < 2 && LowPassDefined(cutoffFrequency, sampleRate)
      modifies this
      ensures Valid()
      ensures cutoffFrequency == old(cutoffFrequency) && filterType == old(filterType) && sampleRate == old(sampleRate)
      ensures Mem(channel) == Step(LowPass, LowPassAlpha(cutoffFrequency, sampleRate), old(Mem(channel)), input)
      ensures output == Mem(channel).prevOutput
      ensures prevOutput == old(prevOutput)[channel := output] && prevInput == old(prevInput)
    {
      var alpha := AlphaOfCode(cutoffFrequency, sampleRate, 0);
      output := (1.0 - alpha) * input + alpha * prevOutput[channel];
      prevOutput := prevOutput[channel := output];
    }

    /** One high-pass sample on channel `channel`: only that channel's memory changes. */
    method ApplyHighPassFilter(input: real, channel: nat) returns (output: real)
      requires Valid() && channel < 2 && HighPassDefined(cutoffFrequency, sampleRate)
      modifies this
      ensures Valid()
      ensures cutoffFrequency == old(cutoffFrequency) && filterType == old(filterType) && sampleRate == old(sampleRate)
      ensures Mem(channel) == Step(HighPass, HighPassAlpha(cutoffFrequency, sampleRate), old(Mem(channel)), input)
      ensures output == Mem(channel).prevOutput
      ensures prevOutput == old(prevOutput)[channel := output] && prevInput == old(prevInput)[channel := input]
    {
      var alpha := AlphaOfCode(cutoffFrequency, sampleRate, 1);
      output := alpha * (prevOutput[channel] + input - prevInput[channel]);
      prevInput := prevInput[channel := input];
      prevOutput := prevOutput[channel := output];
    }

    /**
      The inner loop of `ProcessSamples`: sample `i` of each of the first
      `count` channels is replaced by that channel's next output, and only
      those channels' memory advances.
    */
    method ProcessFrame(samples: seq<array<real>>, i: nat, count: nat)
      requires Valid() && count <= 2 && count <= |samples|
      requires forall c :: 0 <= c < count ==> i < samples[c].Length
      requires forall c, d :: 0 <= c < d < count ==> samples[c] != samples[d]
      requires 0 < count ==> AlphaDefined(Kind(), cutoffFrequency, sampleRate)
      modifies this, set c | 0 <= c < count :: samples[c]
      ensures Valid()
      ensures cutoffFrequency == old(cutoffFrequency) && filterType == old(filterType) && sampleRate == old(sampleRate)
      ensures forall c :: count <= c < 2 ==> Mem(c) == old(Mem(c))
      ensures 0 < count ==> forall c :: 0 <= c < count ==>
        Mem(c) == Step(Kind(), Coefficient(), old(Mem(c)), old(samples[c][i]))
        && samples[c][..] == old(samples[c][..])[i := Mem(c).prevOutput]
    {
      var channel := 0;
      while channel < count
        invariant channel <= count
        invariant Valid()
        invariant cutoffFrequency == old(cutoffFrequency) && filterType == old(filterType) && sampleRate == old(sampleRate)
        invariant forall c :: channel <= c < 2 ==> Mem(c) == old(Mem(c))
        invariant forall c :: channel <= c < count ==> samples[c][..] == old(samples[c][..])
        invariant forall c :: 0 <= c < channel ==>
          Mem(c) == Step(Kind(), Coefficient(), old(Mem(c)), old(samples[c][i]))
          && samples[c][..] == old(samples[c][..])[i := Mem(c).prevOutput]
      {
        var output;
        if filterType == 0 {
          output := ApplyLowPassFilter(samples[channel][i], channel);
        } else {
          output := ApplyHighPassFilter(samples[channel][i], channel);
        }
        samples[channel][i] := output;
        channel := channel + 1;
      }
    }

    /**
      Progress of the loops of `FilterBlock` after i sample indices: channel
      c's buffer holds, in positions [0, i), the filter's outputs for the
      first i of its original contents `xs[c]` from memory `MemoryAt(pi0, po0, c)`, and its
      original contents from position i on; the channel's memory is where
      those i samples left it; channels from `count` on keep their memory.
    */
    ghost predicate FilteredUpTo(samples: seq<array<real>>, count: nat, frames: nat, i: nat,
                                 k: Kind, a: real, pi0: seq<real>, po0: seq<real>, xs: seq<seq<real>>)
      requires Valid() && count <= 2 && count <= |samples| && |pi0| == 2 && |po0| == 2 && |xs| == count && i <= frames
      requires forall c :: 0 <= c < count ==> frames <= samples[c].Length == |xs[c]|
      reads this, set c | 0 <= c < count :: samples[c]
    {
      (forall c :: count <= c < 2 ==> Mem(c) == MemoryAt(pi0, po0, c))
      && forall c :: 0 <= c < count ==>
        samples[c][..i] == Outputs(k, a, MemoryAt(pi0, po0, c), xs[c][..i])
        && Mem(c) == Run(k, a, MemoryAt(pi0, po0, c), xs[c][..i])
        && forall j :: i <= j < samples[c].Length ==> samples[c][j] == xs[c][j]
    }

    /**
      One pass of the outer loop of `FilterBlock`: filtering sample i of
      every channel extends each channel's filtered prefix by one sample.
    */
    method FilterFrame(samples: seq<array<real>>, count: nat, frames: nat, i: nat,
                       ghost k: Kind, ghost a: real, ghost pi0: seq<real>, ghost po0: seq<real>, ghost xs: seq<seq<real>>)
      returns (next: nat)
      requires Valid() && count <= 2 && count <= |samples| && |pi0| == 2 && |po0| == 2 && |xs| == count && i < frames
      requires forall c :: 0 <= c < count ==> frames <= samples[c].Length == |xs[c]|
      requires forall c, d :: 0 <= c < d < count ==> samples[c] != samples[d]
      requires 0 < count ==> AlphaDefined(Kind(), cutoffFrequency, sampleRate) && k == Kind() && a == Coefficient()
      requires FilteredUpTo(samples, count, frames, i, k, a, pi0, po0, xs)
      modifies this, set c | 0 <= c < count :: samples[c]
      ensures Valid()
      ensures cutoffFrequency == old(cutoffFrequency) && filterType == old(filterType) && sampleRate == old(sampleRate)
      ensures next == i + 1 && FilteredUpTo(samples, count, frames, next, k, a, pi0, po0, xs)
    {
      ProcessFrame(samples, i, count);
      forall c | 0 <= c < count
        ensures samples[c][..i + 1] == Outputs(k, a, MemoryAt(pi0, po0, c), xs[c][..i + 1])
        ensures Mem(c) == Run(k, a, MemoryAt(pi0, po0, c), xs[c][..i + 1])
      {
        RewriteNext(k, a, MemoryAt(pi0, po0, c), xs[c], old(samples[c][..]), i);
      }
      next := i + 1;
    }

    /**
      The loops of `ProcessSamples`: sample index by sample index, and within
      that channel by channel, samples [0, frames) of the first `count`
      channels are rewritten in place. Each channel comes out exactly as if
      it had been filtered on its own from its previous memory.
    */
    method FilterBlock(samples: seq<array<real>>, frames: nat, count: nat)
      requires Valid() && count <= 2 && count <= |samples|
      requires forall c :: 0 <= c < count ==> frames <= samples[c].Length
      requires forall c, d :: 0 <= c < d < count ==> samples[c] != samples[d]
      requires 0 < frames && 0 < count ==> AlphaDefined(Kind(), cutoffFrequency, sampleRate)
      modifies this, set c | 0 <= c < count :: samples[c]
      ensures Valid()
      ensures cutoffFrequency == old(cutoffFrequency) && filterType == old(filterType) && sampleRate == old(sampleRate)
      ensures forall c :: count <= c < 2 ==> Mem(c) == old(Mem(c))
      ensures forall c :: 0 <= c < count ==>
        forall j :: frames <= j < samples[c].Length ==> samples[c][j] == old(samples[c][j])
      ensures frames == 0 ==> forall c :: 0 <= c < 2 ==> Mem(c) == old(Mem(c))
      ensures 0 < frames && 0 < count ==> forall c :: 0 <= c < count ==>
        samples[c][..frames] == Outputs(Kind(), Coefficient(), old(Mem(c)), old(samples[c][..frames]))
        && Mem(c) == Run(Kind(), Coefficient(), old(Mem(c)), old(samples[c][..frames]))
    {
      ghost var k := Kind();
      ghost var a := if 0 < frames && 0 < count then Coefficient() else 0.0;
      ghost var pi0, po0 := prevInput, prevOutput;
      ghost var xs: seq<seq<real>> :=
        if count == 0 then [] else if count == 1 then [samples[0][..]] else [samples[0][..], samples[1][..]];
      assert forall c :: 0 <= c < count ==> xs[c] == samples[c][..];
      var i := 0;
      while i < frames
        invariant i <= frames
        invariant Valid()
        invariant cutoffFrequency == old(cutoffFrequency) && filterType == old(filterType) && sampleRate == old(sampleRate)
        invariant FilteredUpTo(samples, count, frames, i, k, a, pi0, po0, xs)
      {
        i := FilterFrame(samples, count, frames, i, k, a, pi0, po0, xs);
      }
      FilteredAll(samples, count, frames, k, a, pi0, po0, xs);
    }

    /**
      Once all `frames` samples are filtered, each channel's prefix is the
      whole of its outputs; with no samples every memory is where it started.
    */
    lemma FilteredAll(samples: seq<array<real>>, count: nat, frames: nat,
                      k: Kind, a: real, pi0: seq<real>, po0: seq<real>, xs: seq<seq<real>>)
      requires Valid() && count <= 2 && count <= |samples| && |pi0| == 2 && |po0| == 2 && |xs| == count
      requires forall c :: 0 <= c < count ==> frames <= samples[c].Length == |xs[c]|
      requires FilteredUpTo(samples, count, frames, frames, k, a, pi0, po0, xs)
      ensures forall c :: count <= c < 2 ==> Mem(c) == MemoryAt(pi0, po0, c)
      ensures forall c :: 0 <= c < count ==>
        samples[c][..frames] == Outputs(k, a, MemoryAt(pi0, po0, c), xs[c][..frames]) && Mem(c) == Run(k, a, MemoryAt(pi0, po0, c), xs[c][..frames])
        && forall j :: frames <= j < samples[c].Length ==> samples[c][j] == xs[c][j]
      ensures frames == 0 ==> forall c :: 0 <= c < 2 ==> Mem(c) == MemoryAt(pi0, po0, c)
    {
      if frames == 0 {
        forall c | 0 <= c < count
          ensures Mem(c) == MemoryAt(pi0, po0, c)
        {
          assert xs[c][..0] == [];
        }
      }
    }

    /** The cutoff `ProcessSamples` filters with: the host's, denormalised, when a track is selected. */
    function NewCutoff(host: Option<HostParams>): real
      reads this
    {
      if host.Some? then DenormalizeCutoff(host.value.cutoff) else cutoffFrequency
    }

    /** The recurrence `ProcessSamples` filters with: the host's type code, truncated, when a track is selected. */
    function NewKind(host: Option<HostParams>): Kind
      reads this
    {
      if host.Some? then KindOfCode(TruncateToInt(host.value.filterType)) else Kind()
    }

    /**
      With a selected track (`host` present), takes the filter type as the
      host's value truncated to an integer and the cutoff as its normalised
      value denormalised, without resetting any memory; then filters samples
      [0, len(samples[0])) of the first min(numChannels, 2) channels in place
      and returns the same channel buffers.
    */
    method ProcessSamples(samples: seq<array<real>>, numChannels: int, host: Option<HostParams>)
      returns (result: seq<array<real>>)
      requires Valid() && 0 < |samples| && ChannelCount(numChannels) <= |samples|
      requires forall c :: 0 <= c < ChannelCount(numChannels) ==> samples[0].Length <= samples[c].Length
      requires forall c, d :: 0 <= c < d < ChannelCount(numChannels) ==> samples[c] != samples[d]
      requires 0 < samples[0].Length && 0 < ChannelCount(numChannels) ==> AlphaDefined(NewKind(host), NewCutoff(host), sampleRate)
      modifies this, set c | 0 <= c < ChannelCount(numChannels) :: samples[c]
      ensures result == samples
      ensures Valid() && sampleRate == old(sampleRate)
      ensures host.Some? ==>
        filterType == TruncateToInt(host.value.filterType) && cutoffFrequency == DenormalizeCutoff(host.value.cutoff)
      ensures host.None? ==> filterType == old(filterType) && cutoffFrequency == old(cutoffFrequency)
      ensures forall c :: ChannelCount(numChannels) <= c < 2 ==> Mem(c) == old(Mem(c))
      ensures forall c :: 0 <= c < ChannelCount(numChannels) ==>
        forall j :: samples[0].Length <= j < samples[c].Length ==> samples[c][j] == old(samples[c][j])
      ensures samples[0].Length == 0 ==> forall c :: 0 <= c < 2 ==> Mem(c) == old(Mem(c))
      ensures 0 < samples[0].Length && 0 < ChannelCount(numChannels) ==>
        forall c :: 0 <= c < ChannelCount(numChannels) ==>
          samples[c][..samples[0].Length] == Outputs(Kind(), Coefficient(), old(Mem(c)), old(samples[c][..samples[0].Length]))
          && Mem(c) == Run(Kind(), Coefficient(), old(Mem(c)), old(samples[c][..samples[0].Length]))
    {
      if host.Some? {
        filterType := TruncateToInt(host.value.filterType);
        cutoffFrequency := DenormalizeCutoff(host.value.cutoff);
      }
      FilterBlock(samples, samples[0].Length, ChannelCount(numChannels));
      result := samples;
    }
  }
}
