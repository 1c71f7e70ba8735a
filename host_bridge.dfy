/**
  The socket bridge's filter (`FilterPlugin`) and the two bridge operations
  that drive it (`PluginHostBridge.process_audio_block` and
  `update_parameters`): a single-memory one-pole filter selected by the
  string "lowpass", applied to mono blocks and, column after column, to
  two-column stereo blocks.
*/
module HostBridge {
  import opened Wrappers
  import opened OnePole

  /**
    An audio block as the host sends it: a one-dimensional list of samples,
    or a two-dimensional list of frames (rows), one column per channel.
  */
  datatype Block = Mono(samples: seq<real>) | Frames(rows: seq<seq<real>>)

  /** Every frame has at least `width` channels, so columns 0 .. width-1 can be taken. */
  predicate HasColumns(rows: seq<seq<real>>, width: nat)
  {
    forall i :: 0 <= i < |rows| ==> width <= |rows[i]|
  }

  /** Column j of a block of frames: channel j's samples, in order. */
  function Column(rows: seq<seq<real>>, j: nat): (column: seq<real>)
    requires HasColumns(rows, j + 1)
    ensures |column| == |rows| && forall i :: 0 <= i < |rows| ==> column[i] == rows[i][j]
  {
    seq(|rows|, i requires 0 <= i < |rows| => rows[i][j])
  }

  /** Two channels side by side: frame i is [left[i], right[i]]. */
  function Stack(left: seq<real>, right: seq<real>): (rows: seq<seq<real>>)
    requires |left| == |right|
    ensures |rows| == |left| && HasColumns(rows, 2)
    ensures forall i :: 0 <= i < |rows| ==> rows[i] == [left[i], right[i]]
  {
    seq(|left|, i requires 0 <= i < |left| => [left[i], right[i]])
  }

  /**
    Stereo as the bridge computes it: the left column is filtered from
    memory `m`, and the right column from the memory the left column left
    behind.
  */
  function SharedStereo(k: Kind, alpha: real, m: Memory, rows: seq<seq<real>>): (out: seq<seq<real>>)
    requires HasColumns(rows, 2)
    ensures |out| == |rows| && HasColumns(out, 2)
    ensures Column(out, 0) == Outputs(k, alpha, m, Column(rows, 0))
    ensures Column(out, 1) == Outputs(k, alpha, Run(k, alpha, m, Column(rows, 0)), Column(rows, 1))
  {
    var left := Outputs(k, alpha, m, Column(rows, 0));
    var right := Outputs(k, alpha, Run(k, alpha, m, Column(rows, 0)), Column(rows, 1));
    var out := Stack(left, right);
    assert Column(out, 0) == left;
    assert Column(out, 1) == right;
    out
  }

  /**
    Sharing the memory makes stereo filtering the same as filtering the left
    column followed by the right column as one mono signal.
  */
  lemma SharedStereoIsConcatenatedMono(k: Kind, alpha: real, m: Memory, rows: seq<seq<real>>)
    requires HasColumns(rows, 2)
    ensures Column(SharedStereo(k, alpha, m, rows), 0) + Column(SharedStereo(k, alpha, m, rows), 1)
         == Outputs(k, alpha, m, Column(rows, 0) + Column(rows, 1))
  {
    RunAppend(k, alpha, m, Column(rows, 0), Column(rows, 1));
  }

  /**
    Low-pass on one frame [l, r] from cleared memory, as written: the right
    output carries alpha (1 - alpha) l of the left input.
  */
  lemma SharedStereoOneFrame(alpha: real, l: real, r: real, rows: seq<seq<real>>)
    requires rows == [[l, r]]
    ensures Column(SharedStereo(LowPass, alpha, Cleared, rows), 1) == [(1.0 - alpha) * r + alpha * ((1.0 - alpha) * l)]
  {
    var left, right := Column(rows, 0), Column(rows, 1);
    assert left == [l] && right == [r];
    SingleSample(LowPass, alpha, Cleared, left);
    var m := Run(LowPass, alpha, Cleared, left);
    assert m.prevOutput == (1.0 - alpha) * l + alpha * 0.0;
    SingleSample(LowPass, alpha, m, right);
    assert Column(SharedStereo(LowPass, alpha, Cleared, rows), 1) == Outputs(LowPass, alpha, m, right);
    assert Step(LowPass, alpha, m, r).prevOutput == (1.0 - alpha) * r + alpha * ((1.0 - alpha) * l);
  }

  /**
    As written, the right channel's output depends on the left channel's
    input: two one-frame blocks with the same right sample (silence) but
    different left samples give different right outputs.
  */
  lemma SharedStereoLeaksLeftIntoRight(rows: seq<seq<real>>, other: seq<seq<real>>)
    requires rows == [[1.0, 0.0]] && other == [[0.0, 0.0]]
    ensures Column(rows, 1) == Column(other, 1)
    ensures Column(SharedStereo(LowPass, 0.5, Cleared, rows), 1) != Column(SharedStereo(LowPass, 0.5, Cleared, other), 1)
  {
    assert Column(rows, 1) == [0.0] == Column(other, 1);
    SilentRightAfterLeft(1.0, rows);
    SilentRightAfterLeft(0.0, other);
  }

  /** A silent right sample after left sample `l`, at alpha 1/2, comes out as a quarter of `l`. */
  lemma SilentRightAfterLeft(l: real, rows: seq<seq<real>>)
    requires rows == [[l, 0.0]]
    ensures Column(SharedStereo(LowPass, 0.5, Cleared, rows), 1) == [0.25 * l]
  {
    SharedStereoOneFrame(0.5, l, 0.0, rows);
  }

  /** Filtering a single sample is one step of the recurrence. */
  lemma SingleSample(k: Kind, alpha: real, m: Memory, xs: seq<real>)
    requires |xs| == 1
    ensures Run(k, alpha, m, xs) == Step(k, alpha, m, xs[0])
    ensures Outputs(k, alpha, m, xs) == [Step(k, alpha, m, xs[0]).prevOutput]
  {
    assert xs[..0] == [];
  }

  /** Stereo with one memory per channel: each column is filtered from its own memory. */
  function IndependentStereo(k: Kind, alpha: real, left: Memory, right: Memory, rows: seq<seq<real>>): (out: seq<seq<real>>)
    requires HasColumns(rows, 2)
    ensures |out| == |rows| && HasColumns(out, 2)
  {
    Stack(Outputs(k, alpha, left, Column(rows, 0)), Outputs(k, alpha, right, Column(rows, 1)))
  }

  /**
    With a memory per channel, each output column is that channel's own
    filtered signal, so the right output depends only on the right input.
  */
  lemma IndependentStereoSeparatesChannels(k: Kind, alpha: real, left: Memory, right: Memory,
                                           rows: seq<seq<real>>, other: seq<seq<real>>)
    requires HasColumns(rows, 2) && HasColumns(other, 2)
    ensures Column(IndependentStereo(k, alpha, left, right, rows), 0) == Outputs(k, alpha, left, Column(rows, 0))
    ensures Column(IndependentStereo(k, alpha, left, right, rows), 1) == Outputs(k, alpha, right, Column(rows, 1))
    ensures Column(rows, 1) == Column(other, 1) ==>
      Column(IndependentStereo(k, alpha, left, right, rows), 1) == Column(IndependentStereo(k, alpha, left, right, other), 1)
  {
    var out := IndependentStereo(k, alpha, left, right, rows);
    assert Column(out, 0) == Outputs(k, alpha, left, Column(rows, 0));
    assert Column(out, 1) == Outputs(k, alpha, right, Column(rows, 1));
    var out' := IndependentStereo(k, alpha, left, right, other);
    assert Column(out', 1) == Outputs(k, alpha, right, Column(other, 1));
  }

  class FilterPlugin {
    var cutoffFrequency: real
    var filterType: string
    var sampleRate: real
    var prevInput: real
    var prevOutput: real

    /** The filter's memory. */
    function Mem(): Memory
      reads this
    {
      Memory(prevInput, prevOutput)
    }

    /** The recurrence the filter runs: "lowpass" is low-pass, any other string high-pass. */
    function Kind(): Kind
      reads this
    {
      KindOfName(filterType)
    }

    /** The coefficient of the current kind, cutoff and sample rate. */
    function Coefficient(): real
      requires AlphaDefined(Kind(), cutoffFrequency, sampleRate)
      reads this
    {
      Alpha(Kind(), cutoffFrequency, sampleRate)
    }

    /** A new filter: cutoff 1000 Hz, "lowpass", 44100 Hz, memory 0. */
    constructor ()
      ensures cutoffFrequency == 1000.0 && filterType == "lowpass" && sampleRate == 44100.0
      ensures Mem() == Cleared
    {
      cutoffFrequency := 1000.0;
      filterType := "lowpass";
      sampleRate := 44100.0;
      prevInput := 0.0;
      prevOutput := 0.0;
    }

    /** One low-pass sample: only the last output changes. */
    method ApplyLowPassFilter(input: real) returns (output: real)
      requires LowPassDefined(cutoffFrequency, sampleRate)
      modifies this
      ensures cutoffFrequency == old(cutoffFrequency) && filterType == old(filterType) && sampleRate == old(sampleRate)
      ensures Mem() == Step(LowPass, LowPassAlpha(cutoffFrequency, sampleRate), old(Mem()), input)
      ensures output == prevOutput
    {
      var alpha := AlphaOfName(cutoffFrequency, sampleRate, "lowpass");
      output := (1.0 - alpha) * input + alpha * prevOutput;
      prevOutput := output;
    }

    /** One high-pass sample: the last input and the last output change. */
    method ApplyHighPassFilter(input: real) returns (output: real)
      requires HighPassDefined(cutoffFrequency, sampleRate)
      modifies this
      ensures cutoffFrequency == old(cutoffFrequency) && filterType == old(filterType) && sampleRate == old(sampleRate)
      ensures Mem() == Step(HighPass, HighPassAlpha(cutoffFrequency, sampleRate), old(Mem()), input)
      ensures output == prevOutput
    {
      var alpha := AlphaOfName(cutoffFrequency, sampleRate, "highpass");
      output := alpha * (prevOutput + input - prevInput);
      prevInput := input;
      prevOutput := output;
    }

    /**
      Filters a mono signal sample by sample from the current memory: one
      output per input, in order, and the memory carries over to the next
      call.
    */
    method ProcessMono(samples: seq<real>) returns (processed: seq<real>)
      requires 0 < |samples| ==> AlphaDefined(Kind(), cutoffFrequency, sampleRate)
      modifies this
      ensures cutoffFrequency == old(cutoffFrequency) && filterType == old(filterType) && sampleRate == old(sampleRate)
      ensures |samples| == 0 ==> processed == [] && Mem() == old(Mem())
      ensures 0 < |samples| ==>
        processed == Outputs(Kind(), Coefficient(), old(Mem()), samples)
        && Mem() == Run(Kind(), Coefficient(), old(Mem()), samples)
    {
      ghost var m0 := Mem();
      ghost var k := Kind();
      ghost var a := if 0 < |samples| then Coefficient() else 0.0;
      processed := seq(|samples|, _ => 0.0);
      var i := 0;
      while i < |samples|
        invariant i <= |samples| && |processed| == |samples|
        invariant cutoffFrequency == old(cutoffFrequency) && filterType == old(filterType) && sampleRate == old(sampleRate)
        invariant processed[..i] == Outputs(k, a, m0, samples[..i])
        invariant Mem() == Run(k, a, m0, samples[..i])
      {
        var output;
        if filterType == "lowpass" {
          output := ApplyLowPassFilter(samples[i]);
        } else {
          output := ApplyHighPassFilter(samples[i]);
        }
        RewriteNext(k, a, m0, samples, processed, i);
        processed := processed[i := output];
        i := i + 1;
      }
      assert samples[..i] == samples && processed[..i] == processed;
    }

    /**
      A two-dimensional block is filtered column 0, then column 1, both
      through the one shared memory, and the two output columns are stacked
      into frames of two; any other block is filtered as mono.
    */
    method ProcessStereo(samples: Block) returns (processed: Block)
      requires samples.Frames? ==> HasColumns(samples.rows, 2)
      requires (if samples.Mono? then 0 < |samples.samples| else 0 < |samples.rows|) ==>
        AlphaDefined(Kind(), cutoffFrequency, sampleRate)
      modifies this
      ensures cutoffFrequency == old(cutoffFrequency) && filterType == old(filterType) && sampleRate == old(sampleRate)
      ensures samples.Mono? && samples.samples == [] ==> processed == Mono([]) && Mem() == old(Mem())
      ensures samples.Mono? && samples.samples != [] ==>
        processed == Mono(Outputs(Kind(), Coefficient(), old(Mem()), samples.samples))
        && Mem() == Run(Kind(), Coefficient(), old(Mem()), samples.samples)
      ensures samples.Frames? && samples.rows == [] ==> processed == Frames([]) && Mem() == old(Mem())
      ensures samples.Frames? && samples.rows != [] ==>
        processed == Frames(SharedStereo(Kind(), Coefficient(), old(Mem()), samples.rows))
        && Mem() == Run(Kind(), Coefficient(), old(Mem()), Column(samples.rows, 0) + Column(samples.rows, 1))
    {
      if samples.Frames? {
        var rows := samples.rows;
        var left := ProcessMono(Column(rows, 0));
        var right := ProcessMono(Column(rows, 1));
        processed := Frames(Stack(left, right));
        if rows != [] {
          RunAppend(Kind(), Coefficient(), old(Mem()), Column(rows, 0), Column(rows, 1));
        }
      } else {
        var mono := ProcessMono(samples.samples);
        processed := Mono(mono);
      }
    }
  }

  class PluginHostBridge {
    const filterPlugin: FilterPlugin

    /** A new bridge owns a new filter. */
    constructor ()
      ensures fresh(filterPlugin)
      ensures filterPlugin.cutoffFrequency == 1000.0 && filterPlugin.filterType == "lowpass"
      ensures filterPlugin.sampleRate == 44100.0 && filterPlugin.Mem() == Cleared
    {
      filterPlugin := new FilterPlugin();
    }

    /**
      A parameter message: a cutoff present is stored as given, with no
      clamping; a filter type present is stored and always clears the memory,
      even when it is unchanged; an absent key leaves its field as it was.
    */
    method UpdateParameters(cutoff: Option<real>, filterType: Option<string>)
      modifies filterPlugin
      ensures filterPlugin.sampleRate == old(filterPlugin.sampleRate)
      ensures filterPlugin.cutoffFrequency == if cutoff.Some? then cutoff.value else old(filterPlugin.cutoffFrequency)
      ensures filterPlugin.filterType == if filterType.Some? then filterType.value else old(filterPlugin.filterType)
      ensures filterPlugin.Mem() == if filterType.Some? then Cleared else old(filterPlugin.Mem())
    {
      if cutoff.Some? {
        filterPlugin.cutoffFrequency := cutoff.value;
      }
      if filterType.Some? {
        filterPlugin.filterType := filterType.value;
        filterPlugin.prevInput := 0.0;
        filterPlugin.prevOutput := 0.0;
      }
    }

    /**
      An audio-block message: a mono block goes through `ProcessMono`, a
      two-dimensional one through `ProcessStereo`. The block's sample rate is
      read but never applied: the filter keeps its own.
    */
    method ProcessAudioBlock(block: Block, sampleRate: Option<real>) returns (processed: Block)
      requires block.Frames? ==> HasColumns(block.rows, 2)
      requires (if block.Mono? then 0 < |block.samples| else 0 < |block.rows|) ==>
        AlphaDefined(filterPlugin.Kind(), filterPlugin.cutoffFrequency, filterPlugin.sampleRate)
      modifies filterPlugin
      ensures filterPlugin.sampleRate == old(filterPlugin.sampleRate)
      ensures filterPlugin.cutoffFrequency == old(filterPlugin.cutoffFrequency)
      ensures filterPlugin.filterType == old(filterPlugin.filterType)
      ensures block.Mono? && block.samples != [] ==>
        processed == Mono(Outputs(filterPlugin.Kind(), filterPlugin.Coefficient(), old(filterPlugin.Mem()), block.samples))
        && filterPlugin.Mem() == Run(filterPlugin.Kind(), filterPlugin.Coefficient(), old(filterPlugin.Mem()), block.samples)
      ensures block.Frames? && block.rows != [] ==>
        processed == Frames(SharedStereo(filterPlugin.Kind(), filterPlugin.Coefficient(), old(filterPlugin.Mem()), block.rows))
        && filterPlugin.Mem() == Run(filterPlugin.Kind(), filterPlugin.Coefficient(), old(filterPlugin.Mem()),
                                     Column(block.rows, 0) + Column(block.rows, 1))
      ensures block == Mono([]) || block == Frames([]) ==> processed == block && filterPlugin.Mem() == old(filterPlugin.Mem())
    {
      if block.Mono? {
        var mono := filterPlugin.ProcessMono(block.samples);
        processed := Mono(mono);
      } else {
        processed := filterPlugin.ProcessStereo(block);
      }
    }
  }
}
