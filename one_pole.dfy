/**
  The first-order (one-pole) IIR recurrence that every variant of the filter
  plug-in runs, stated once over real numbers:

    low-pass:  alpha = 1 / (1 + fc/sr),   y[n] = (1 - alpha) x[n] + alpha y[n-1]
    high-pass: alpha = fc / (fc + sr),    y[n] = alpha (y[n-1] + x[n] - x[n-1])

  `Run` and `Outputs` are the specification every processing loop of the
  adapters is proved against; the lemmas below are the properties of the
  recurrence itself.
*/
module OnePole {

  /** Which recurrence a filter runs. */
  datatype Kind = LowPass | HighPass

  /** Integer filter-type code of the C++ and REAPER variants: 0 selects low-pass, any other value high-pass. */
  function KindOfCode(filterType: int): (k: Kind)
    ensures k == LowPass <==> filterType == 0
  {
    if filterType == 0 then LowPass else HighPass
  }

  /** String filter type of the Python variants: "lowpass" selects low-pass, any other string high-pass. */
  function KindOfName(filterType: string): (k: Kind)
    ensures k == LowPass <==> filterType == "lowpass"
  {
    if filterType == "lowpass" then LowPass else HighPass
  }

  /** One channel's filter memory: the last input (read only by high-pass) and the last output. */
  datatype Memory = Memory(prevInput: real, prevOutput: real)

  /** The memory every variant starts from and resets to. */
  const Cleared: Memory := Memory(0.0, 0.0)

  /** The low-pass formula 1 / (1 + fc/sr) divides by sr and by 1 + fc/sr: both must be non-zero. */
  predicate LowPassDefined(cutoff: real, sampleRate: real)
  {
    sampleRate != 0.0 && cutoff + sampleRate != 0.0
  }

  /** The high-pass formula fc / (fc + sr) divides only by fc + sr. */
  predicate HighPassDefined(cutoff: real, sampleRate: real)
  {
    cutoff + sampleRate != 0.0
  }

  /** The coefficient of a filter of kind `k` is defined. */
  predicate AlphaDefined(k: Kind, cutoff: real, sampleRate: real)
  {
    match k
    case LowPass => LowPassDefined(cutoff, sampleRate)
    case HighPass => HighPassDefined(cutoff, sampleRate)
  }

  /** Low-pass coefficient 1 / (1 + fc/sr); it is the share sr / (fc + sr). */
  function LowPassAlpha(cutoff: real, sampleRate: real): (alpha: real)
    requires LowPassDefined(cutoff, sampleRate)
    ensures alpha * (cutoff + sampleRate) == sampleRate
  {
    var q := cutoff / sampleRate;
    assert q * sampleRate == cutoff;
    assert (1.0 + q) * sampleRate == cutoff + sampleRate;
    assert 1.0 / (1.0 + q) * (1.0 + q) == 1.0;
    assert 1.0 / (1.0 + q) * (cutoff + sampleRate) == 1.0 / (1.0 + q) * (1.0 + q) * sampleRate;
    1.0 / (1.0 + cutoff / sampleRate)
  }

  /**
    High-pass coefficient fc / (fc + sr); wherever the low-pass one is also
    defined it is the complement of it.
  */
  function HighPassAlpha(cutoff: real, sampleRate: real): (alpha: real)
    requires HighPassDefined(cutoff, sampleRate)
    ensures alpha * (cutoff + sampleRate) == cutoff
    ensures sampleRate != 0.0 ==> alpha + LowPassAlpha(cutoff, sampleRate) == 1.0
  {
    if sampleRate != 0.0 then
      var a := LowPassAlpha(cutoff, sampleRate);
      assert (cutoff / (cutoff + sampleRate) + a) * (cutoff + sampleRate) == cutoff + sampleRate;
      cutoff / (cutoff + sampleRate)
    else
      cutoff / (cutoff + sampleRate)
  }

  /** The coefficient a filter of kind `k` uses. */
  function Alpha(k: Kind, cutoff: real, sampleRate: real): real
    requires AlphaDefined(k, cutoff, sampleRate)
  {
    match k
    case LowPass => LowPassAlpha(cutoff, sampleRate)
    case HighPass => HighPassAlpha(cutoff, sampleRate)
  }

  /**
    The coefficient selected by an integer filter-type code, as the C++ and
    REAPER variants compute it: 0 gives the low-pass coefficient, any other
    code the high-pass one.
  */
  function AlphaOfCode(cutoff: real, sampleRate: real, filterType: int): (alpha: real)
    requires AlphaDefined(KindOfCode(filterType), cutoff, sampleRate)
    ensures filterType == 0 ==> alpha * (cutoff + sampleRate) == sampleRate
    ensures filterType != 0 ==> alpha * (cutoff + sampleRate) == cutoff
    ensures filterType != 0 && sampleRate != 0.0 ==> alpha == 1.0 - LowPassAlpha(cutoff, sampleRate)
    ensures 0.0 < cutoff && 0.0 < sampleRate ==> 0.0 < alpha < 1.0
  {
    if 0.0 < cutoff && 0.0 < sampleRate then
      AlphaInOpenUnitInterval(cutoff, sampleRate);
      Alpha(KindOfCode(filterType), cutoff, sampleRate)
    else
      Alpha(KindOfCode(filterType), cutoff, sampleRate)
  }

  /**
    The coefficient selected by a string filter type, as the Python variants
    compute it: "lowpass" gives the low-pass coefficient, any other string
    the high-pass one.
  */
  function AlphaOfName(cutoff: real, sampleRate: real, filterType: string): (alpha: real)
    requires AlphaDefined(KindOfName(filterType), cutoff, sampleRate)
    ensures filterType == "lowpass" ==> alpha * (cutoff + sampleRate) == sampleRate
    ensures filterType != "lowpass" ==> alpha * (cutoff + sampleRate) == cutoff
    ensures filterType != "lowpass" && sampleRate != 0.0 ==> alpha == 1.0 - LowPassAlpha(cutoff, sampleRate)
    ensures 0.0 < cutoff && 0.0 < sampleRate ==> 0.0 < alpha < 1.0
  {
    if 0.0 < cutoff && 0.0 < sampleRate then
      AlphaInOpenUnitInterval(cutoff, sampleRate);
      Alpha(KindOfName(filterType), cutoff, sampleRate)
    else
      Alpha(KindOfName(filterType), cutoff, sampleRate)
  }

  /** For a positive cutoff and sample rate both coefficients lie strictly between 0 and 1. */
  lemma AlphaInOpenUnitInterval(cutoff: real, sampleRate: real)
    requires 0.0 < cutoff && 0.0 < sampleRate
    ensures 0.0 < LowPassAlpha(cutoff, sampleRate) < 1.0
    ensures 0.0 < HighPassAlpha(cutoff, sampleRate) < 1.0
  {
  }

  /**
    One sample through the recurrence. The new memory's `prevOutput` is the
    output sample; low-pass keeps `prevInput`, high-pass records the input.
  */
  function Step(k: Kind, alpha: real, m: Memory, x: real): (r: Memory)
    ensures k == LowPass ==> r.prevInput == m.prevInput
    ensures k == HighPass ==> r.prevInput == x
  {
    match k
    case LowPass => Memory(m.prevInput, (1.0 - alpha) * x + alpha * m.prevOutput)
    case HighPass => Memory(x, alpha * (m.prevOutput + x - m.prevInput))
  }

  /** The memory after filtering `xs` in order, starting from `m`. */
  function Run(k: Kind, alpha: real, m: Memory, xs: seq<real>): (r: Memory)
    ensures xs == [] ==> r == m
    ensures k == HighPass && xs != [] ==> r.prevInput == xs[|xs| - 1]
    decreases |xs|
  {
    if xs == [] then m else Step(k, alpha, Run(k, alpha, m, xs[..|xs| - 1]), xs[|xs| - 1])
  }

  /** The output samples of filtering `xs` in order, starting from `m`: one per input. */
  function Outputs(k: Kind, alpha: real, m: Memory, xs: seq<real>): (ys: seq<real>)
    ensures |ys| == |xs|
    decreases |xs|
  {
    if xs == [] then [] else Outputs(k, alpha, m, xs[..|xs| - 1]) + [Run(k, alpha, m, xs).prevOutput]
  }

  /** Extending the input by one sample extends the outputs by one step of the recurrence. */
  lemma OutputsExtend(k: Kind, alpha: real, m: Memory, xs: seq<real>, i: nat)
    requires i < |xs|
    ensures Run(k, alpha, m, xs[..i + 1]) == Step(k, alpha, Run(k, alpha, m, xs[..i]), xs[i])
    ensures Outputs(k, alpha, m, xs[..i + 1]) == Outputs(k, alpha, m, xs[..i]) + [Run(k, alpha, m, xs[..i + 1]).prevOutput]
  {
    assert xs[..i + 1][..i] == xs[..i];
  }

  /** The i-th output is the filter's output after the first i+1 inputs. */
  lemma {:induction false} OutputsAt(k: Kind, alpha: real, m: Memory, xs: seq<real>, i: nat)
    requires i < |xs|
    ensures Outputs(k, alpha, m, xs)[i] == Run(k, alpha, m, xs[..i + 1]).prevOutput
    decreases |xs|
  {
    if i < |xs| - 1 {
      OutputsAt(k, alpha, m, xs[..|xs| - 1], i);
      assert xs[..|xs| - 1][..i + 1] == xs[..i + 1];
    } else {
      assert xs[..i + 1] == xs;
    }
  }

  /**
    Chunking invariance: filtering `xs + ys` in one call gives the same outputs
    and the same final memory as filtering `xs` and then `ys` from the memory
    `xs` left behind.
  */
  lemma {:induction false} RunAppend(k: Kind, alpha: real, m: Memory, xs: seq<real>, ys: seq<real>)
    ensures Run(k, alpha, m, xs + ys) == Run(k, alpha, Run(k, alpha, m, xs), ys)
    ensures Outputs(k, alpha, m, xs + ys) == Outputs(k, alpha, m, xs) + Outputs(k, alpha, Run(k, alpha, m, xs), ys)
    decreases |ys|
  {
    if ys == [] {
      assert xs + ys == xs;
    } else {
      var init := ys[..|ys| - 1];
      RunAppend(k, alpha, m, xs, init);
      assert (xs + ys)[..|xs + ys| - 1] == xs + init;
      assert (xs + ys)[|xs + ys| - 1] == ys[|ys| - 1];
    }
  }

  /** Low-pass never looks at, nor changes, the remembered input. */
  lemma {:induction false} LowPassKeepsInput(alpha: real, m: Memory, xs: seq<real>)
    ensures Run(LowPass, alpha, m, xs).prevInput == m.prevInput
    decreases |xs|
  {
    if xs != [] {
      LowPassKeepsInput(alpha, m, xs[..|xs| - 1]);
    }
  }

  /** The low-pass recurrence y[i] = (1 - alpha) x[i] + alpha y[i-1], with y[-1] the remembered output. */
  lemma LowPassRecurrence(alpha: real, m: Memory, xs: seq<real>, i: nat)
    requires i < |xs|
    ensures Outputs(LowPass, alpha, m, xs)[i]
         == (1.0 - alpha) * xs[i] + alpha * (if i == 0 then m.prevOutput else Outputs(LowPass, alpha, m, xs)[i - 1])
  {
    OutputsAt(LowPass, alpha, m, xs, i);
    OutputsExtend(LowPass, alpha, m, xs, i);
    if i > 0 {
      OutputsAt(LowPass, alpha, m, xs, i - 1);
    }
  }

  /**
    The high-pass recurrence y[i] = alpha (y[i-1] + x[i] - x[i-1]), with y[-1]
    and x[-1] the remembered output and input.
  */
  lemma HighPassRecurrence(alpha: real, m: Memory, xs: seq<real>, i: nat)
    requires i < |xs|
    ensures Outputs(HighPass, alpha, m, xs)[i]
         == alpha * ((if i == 0 then m.prevOutput else Outputs(HighPass, alpha, m, xs)[i - 1])
                     + xs[i]
                     - (if i == 0 then m.prevInput else xs[i - 1]))
  {
    OutputsAt(HighPass, alpha, m, xs, i);
    OutputsExtend(HighPass, alpha, m, xs, i);
    if i > 0 {
      OutputsAt(HighPass, alpha, m, xs, i - 1);
    }
  }

  /** `n` copies of the sample value `c`. */
  function Constant(c: real, n: nat): (s: seq<real>)
  {
    seq(n, _ => c)
  }

  function Pow(a: real, n: nat): real
  {
    if n == 0 then 1.0 else a * Pow(a, n - 1)
  }

  lemma ConstantPrefix(c: real, n: nat, i: nat)
    requires i <= n
    ensures Constant(c, n)[..i] == Constant(c, i)
  {
  }

  /** Low-pass step response from cleared memory: after n samples of c the output is c (1 - alpha^n). */
  lemma {:induction false} LowPassStepResponse(alpha: real, c: real, n: nat)
    ensures Run(LowPass, alpha, Cleared, Constant(c, n)).prevOutput == c * (1.0 - Pow(alpha, n))
  {
    if n == 0 {
      assert Constant(c, n) == [];
    } else {
      LowPassStepResponse(alpha, c, n - 1);
      RunConstantNext(LowPass, alpha, Cleared, c, n - 1, n);
      LowPassStepPow(alpha, c, Run(LowPass, alpha, Cleared, Constant(c, n - 1)), n - 1, n);
    }
  }

  /** One low-pass step on input c from output c (1 - alpha^i) reaches c (1 - alpha^(i+1)). */
  lemma LowPassStepPow(alpha: real, c: real, m: Memory, i: nat, j: nat)
    requires j == i + 1 && m.prevOutput == c * (1.0 - Pow(alpha, i))
    ensures Step(LowPass, alpha, m, c).prevOutput == c * (1.0 - Pow(alpha, j))
  {
    LowPassPowStep(alpha, c, Pow(alpha, i), m.prevOutput, Pow(alpha, j), Step(LowPass, alpha, m, c).prevOutput);
  }

  /** The arithmetic of one low-pass step of the step response. */
  lemma LowPassPowStep(alpha: real, c: real, p: real, y: real, q: real, z: real)
    requires y == c * (1.0 - p) && q == alpha * p && z == (1.0 - alpha) * c + alpha * y
    ensures z == c * (1.0 - q)
  {
  }

  /** High-pass step response from cleared memory: after n > 0 samples of c the output is alpha^n c. */
  lemma {:induction false} HighPassStepResponse(alpha: real, c: real, n: nat)
    requires n > 0
    ensures Run(HighPass, alpha, Cleared, Constant(c, n)) == Memory(c, Pow(alpha, n) * c)
  {
    ConstantPrefix(c, n, n - 1);
    if n > 1 {
      HighPassStepResponse(alpha, c, n - 1);
      assert alpha * (Pow(alpha, n - 1) * c + c - c) == Pow(alpha, n) * c;
    }
  }

  /** For constant input c from cleared memory, low-pass output i is c (1 - alpha^(i+1)). */
  lemma LowPassConstantOutputs(alpha: real, c: real, n: nat, i: nat)
    requires i < n
    ensures Outputs(LowPass, alpha, Cleared, Constant(c, n))[i] == c * (1.0 - Pow(alpha, i + 1))
  {
    OutputsAt(LowPass, alpha, Cleared, Constant(c, n), i);
    ConstantPrefix(c, n, i + 1);
    LowPassStepResponse(alpha, c, i + 1);
  }

  /** For constant input c from cleared memory, high-pass output i is alpha^(i+1) c. */
  lemma HighPassConstantOutputs(alpha: real, c: real, n: nat, i: nat)
    requires i < n
    ensures Outputs(HighPass, alpha, Cleared, Constant(c, n))[i] == Pow(alpha, i + 1) * c
  {
    OutputsAt(HighPass, alpha, Cleared, Constant(c, n), i);
    ConstantPrefix(c, n, i + 1);
    HighPassStepResponse(alpha, c, i + 1);
  }

  /** Silence in, silence out, for either kind, from cleared memory. */
  lemma {:induction false} SilenceStaysSilent(k: Kind, alpha: real, n: nat)
    ensures Run(k, alpha, Cleared, Constant(0.0, n)) == Cleared
    ensures Outputs(k, alpha, Cleared, Constant(0.0, n)) == Constant(0.0, n)
  {
    if n > 0 {
      ConstantPrefix(0.0, n, n - 1);
      SilenceStaysSilent(k, alpha, n - 1);
    }
  }

  function Abs(x: real): real
  {
    if x < 0.0 then -x else x
  }

  /** On plain numbers: s = alpha e, for alpha in (0, 1) and a positive e, lies strictly between 0 and e. */
  lemma Shrink(alpha: real, e: real, s: real)
    requires 0.0 < alpha < 1.0 && 0.0 < e && s == alpha * e
    ensures 0.0 < s < e
  {
    assert e * alpha < e * 1.0;
    assert e * alpha < e;
    assert s == e * alpha;
    assert s < e;
    assert e * 0.0 < e * alpha;
    assert 0.0 < s;
  }

  /** On plain numbers: s = alpha e, for alpha in (0, 1) and e >= 0, lies in [0, e], and is positive when e is. */
  lemma ShrinkWeak(alpha: real, e: real, s: real)
    requires 0.0 < alpha < 1.0 && 0.0 <= e && s == alpha * e
    ensures 0.0 <= s <= e
    ensures 0.0 < e ==> 0.0 < s
  {
    if 0.0 < e {
      Shrink(alpha, e, s);
    } else {
      assert e == 0.0;
      assert s == alpha * 0.0;
    }
  }

  /** |a x| = a |x| for a positive a. */
  lemma AbsScale(a: real, x: real)
    requires 0.0 < a
    ensures Abs(a * x) == a * Abs(x)
  {
    if x < 0.0 {
      assert a * x < a * 0.0;
      assert -(a * x) == a * (-x);
    } else if x > 0.0 {
      assert a * 0.0 < a * x;
    }
  }

  /** On plain numbers: s = alpha e, for alpha in (0, 1), is no larger than e in magnitude, and strictly smaller but non-zero when e is non-zero. */
  lemma ScaledCloser(alpha: real, e: real, s: real)
    requires 0.0 < alpha < 1.0 && s == alpha * e
    ensures Abs(s) <= Abs(e)
    ensures 0.0 < Abs(e) ==> 0.0 < Abs(s) < Abs(e)
  {
    AbsScale(alpha, e);
    ShrinkWeak(alpha, Abs(e), Abs(s));
  }

  /** j = i + 1 samples of c run as i samples of c followed by one more step on c. */
  lemma RunConstantNext(k: Kind, alpha: real, m: Memory, c: real, i: nat, j: nat)
    requires j == i + 1
    ensures Run(k, alpha, m, Constant(c, j)) == Step(k, alpha, Run(k, alpha, m, Constant(c, i)), c)
  {
    ConstantPrefix(c, j, i);
  }

  /**
    One low-pass step on input c moves the remembered output towards c: the
    distance is scaled by alpha, so it never grows and, when positive, stays
    positive and shrinks.
  */
  lemma LowPassStepCloser(alpha: real, m: Memory, c: real)
    requires 0.0 < alpha < 1.0
    ensures Abs(Step(LowPass, alpha, m, c).prevOutput - c) <= Abs(m.prevOutput - c)
    ensures 0.0 < Abs(m.prevOutput - c) ==>
      0.0 < Abs(Step(LowPass, alpha, m, c).prevOutput - c) < Abs(m.prevOutput - c)
  {
    assert Step(LowPass, alpha, m, c).prevOutput - c == alpha * (m.prevOutput - c);
    ScaledCloser(alpha, m.prevOutput - c, Step(LowPass, alpha, m, c).prevOutput - c);
  }

  /**
    Low-pass never overshoots a constant input: from cleared memory the
    distance to the input level c never exceeds |c|, and it stays positive
    while c is non-zero.
  */
  lemma {:induction false} LowPassWithin(alpha: real, c: real, n: nat)
    requires 0.0 < alpha < 1.0
    ensures Abs(Run(LowPass, alpha, Cleared, Constant(c, n)).prevOutput - c) <= Abs(c)
    ensures c != 0.0 ==> 0.0 < Abs(Run(LowPass, alpha, Cleared, Constant(c, n)).prevOutput - c)
  {
    if n == 0 {
      assert Constant(c, n) == [];
    } else {
      LowPassWithin(alpha, c, n - 1);
      RunConstantNext(LowPass, alpha, Cleared, c, n - 1, n);
      LowPassStepCloser(alpha, Run(LowPass, alpha, Cleared, Constant(c, n - 1)), c);
    }
  }

  /**
    Low-pass settles towards a constant input: from cleared memory, while c
    is non-zero, the distance to c shrinks with every sample.
  */
  lemma LowPassApproaches(alpha: real, c: real, n: nat)
    requires 0.0 < alpha < 1.0 && c != 0.0
    ensures Abs(Run(LowPass, alpha, Cleared, Constant(c, n + 1)).prevOutput - c)
          < Abs(Run(LowPass, alpha, Cleared, Constant(c, n)).prevOutput - c)
  {
    LowPassWithin(alpha, c, n);
    RunConstantNext(LowPass, alpha, Cleared, c, n, n + 1);
    LowPassStepCloser(alpha, Run(LowPass, alpha, Cleared, Constant(c, n)), c);
  }

  /**
    A high-pass step on the input it last saw scales the remembered output
    by alpha: a non-zero output stays non-zero and shrinks in magnitude.
  */
  lemma HighPassStepFades(alpha: real, m: Memory, c: real)
    requires 0.0 < alpha < 1.0 && m.prevInput == c
    ensures Step(HighPass, alpha, m, c).prevInput == c
    ensures 0.0 < Abs(m.prevOutput) ==>
      0.0 < Abs(Step(HighPass, alpha, m, c).prevOutput) < Abs(m.prevOutput)
  {
    assert Step(HighPass, alpha, m, c).prevOutput == alpha * m.prevOutput;
    ScaledCloser(alpha, m.prevOutput, Step(HighPass, alpha, m, c).prevOutput);
  }

  /**
    High-pass lets only part of a step through: from cleared memory, after
    n > 0 samples of a non-zero c the output is non-zero and smaller in
    magnitude than c, and the remembered input is c.
  */
  lemma {:induction false} HighPassBelow(alpha: real, c: real, n: nat)
    requires 0.0 < alpha < 1.0 && n > 0 && c != 0.0
    ensures Run(HighPass, alpha, Cleared, Constant(c, n)).prevInput == c
    ensures 0.0 < Abs(Run(HighPass, alpha, Cleared, Constant(c, n)).prevOutput) < Abs(c)
  {
    if n == 1 {
      RunConstantNext(HighPass, alpha, Cleared, c, 0, n);
      assert Constant(c, 0) == [];
      HighPassStepFades(alpha, Memory(c, c), c);
    } else {
      HighPassBelow(alpha, c, n - 1);
      RunConstantNext(HighPass, alpha, Cleared, c, n - 1, n);
      HighPassStepFades(alpha, Run(HighPass, alpha, Cleared, Constant(c, n - 1)), c);
    }
  }

  /**
    High-pass forgets a constant input: from cleared memory, after n > 0
    samples of a non-zero c the output shrinks in magnitude with every
    further sample.
  */
  lemma HighPassDecays(alpha: real, c: real, n: nat)
    requires 0.0 < alpha < 1.0 && c != 0.0 && n > 0
    ensures Abs(Run(HighPass, alpha, Cleared, Constant(c, n + 1)).prevOutput)
          < Abs(Run(HighPass, alpha, Cleared, Constant(c, n)).prevOutput)
  {
    HighPassBelow(alpha, c, n);
    RunConstantNext(HighPass, alpha, Cleared, c, n, n + 1);
    HighPassStepFades(alpha, Run(HighPass, alpha, Cleared, Constant(c, n)), c);
  }

  /**
    The one-step helper of a sample-major processing loop: writing the next
    output over position i of a partly filtered buffer extends the filtered
    prefix.
  */
  lemma RewriteNext(k: Kind, alpha: real, m: Memory, xs: seq<real>, done: seq<real>, i: nat)
    requires i < |xs| <= |done|
    requires done[..i] == Outputs(k, alpha, m, xs[..i])
    ensures done[i := Step(k, alpha, Run(k, alpha, m, xs[..i]), xs[i]).prevOutput][..i + 1]
         == Outputs(k, alpha, m, xs[..i + 1])
    ensures Run(k, alpha, m, xs[..i + 1]) == Step(k, alpha, Run(k, alpha, m, xs[..i]), xs[i])
  {
    OutputsExtend(k, alpha, m, xs, i);
    var y := Step(k, alpha, Run(k, alpha, m, xs[..i]), xs[i]).prevOutput;
    assert done[i := y][..i + 1] == done[..i] + [y];
  }
}
