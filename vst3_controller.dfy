/**
  The VST3 edit controller `FilterVST3Controller`: three parameter objects
  (filter type, cutoff, bypass) synchronised from and saved to a
  three-field little-endian state.
*/
module Vst3Controller {
  import opened Wrappers
  import opened Numeric
  import opened Vst3State

  /** A parameter object, treated as a cell holding its normalised value. */
  class Parameter {
    var normalized: real

    constructor (value: real)
      ensures normalized == value
    {
      normalized := value;
    }
  }

  /** A range parameter's normalised value of a plain value: (plain - min) / (max - min). */
  function RangeNormalized(minPlain: real, maxPlain: real, plain: real): (normalized: real)
    requires minPlain < maxPlain
    ensures minPlain + normalized * (maxPlain - minPlain) == plain
  {
    (plain - minPlain) / (maxPlain - minPlain)
  }

  /**
    As written, `initialize` stores the 1000 Hz default on the cutoff range
    parameter's [20, 20000] scale, while `getState` reads the value back on
    the [0, 20000] scale. A controller that has loaded no state therefore
    reports 19600000 / 19980 Hz, about 981 Hz, instead of 1000 Hz.
  */
  lemma InitialCutoffMisreported()
    ensures ReportedFields(Some(RangeNormalized(20.0, 20000.0, 1000.0)), Some(RangeNormalized(0.0, 1.0, 0.0)),
                           Some(RangeNormalized(0.0, 1.0, 0.0))).cutoff == 19600000.0 / 19980.0
    ensures ReportedFields(Some(RangeNormalized(20.0, 20000.0, 1000.0)), Some(RangeNormalized(0.0, 1.0, 0.0)),
                           Some(RangeNormalized(0.0, 1.0, 0.0))).cutoff != 1000.0
  {
    var n := RangeNormalized(20.0, 20000.0, 1000.0);
    assert n * 19980.0 == 980.0;
    assert n * 20000.0 * 19980.0 == 19600000.0;
  }

  /**
    Corrected: with the cutoff default stored on the scale `getState` reads
    (1000 / 20000), a controller that has loaded no state reports exactly
    its defaults: 1000 Hz, low-pass, bypass off.
  */
  lemma InitialStateReportedOnOneScale()
    ensures ReportedFields(Some(NormalizeCutoff(1000.0)), Some(RangeNormalized(0.0, 1.0, 0.0)),
                           Some(RangeNormalized(0.0, 1.0, 0.0))) == ControllerFields(1000.0, 0, 0.0)
  {
    var zero := RangeNormalized(0.0, 1.0, 0.0);
    assert zero == 0.0;
    var t := TruncateToInt(zero);
    assert 0.0 <= t as real < 1.0;
    var f := ReportedFields(Some(NormalizeCutoff(1000.0)), Some(zero), Some(zero));
    assert f.cutoff == NormalizeCutoff(1000.0) * 20000.0 == 1000.0;
    assert f.filterType == t == 0;
  }

  class FilterVST3Controller {
    var filterTypeParam: Parameter?
    var cutoffFreqParam: Parameter?
    var bypassParam: Parameter?

    /**
      The parameter objects are distinct, and the type parameter's value
      truncates to a 32-bit integer, so the state can always be written.
    */
    predicate Valid()
      reads this, filterTypeParam
    {
      (filterTypeParam != null && cutoffFreqParam != null ==> filterTypeParam != cutoffFreqParam)
      && (filterTypeParam != null && bypassParam != null ==> filterTypeParam != bypassParam)
      && (cutoffFreqParam != null && bypassParam != null ==> cutoffFreqParam != bypassParam)
      && (filterTypeParam != null ==> IsInt32(TruncateToInt(filterTypeParam.normalized)))
    }

    /** The parameter objects that exist. */
    function Params(): set<Parameter>
      reads this
    {
      (if filterTypeParam != null then {filterTypeParam} else {})
      + (if cutoffFreqParam != null then {cutoffFreqParam} else {})
      + (if bypassParam != null then {bypassParam} else {})
    }

    /** A parameter's normalised value, None when the object does not exist. */
    function ValueOf(p: Parameter?): Option<real>
      reads p
    {
      if p == null then None else Some(p.normalized)
    }

    /** The fields `GetState` writes for the current parameter values. */
    function ReportedState(): (f: ControllerFields)
      requires Valid()
      reads this, filterTypeParam, cutoffFreqParam, bypassParam
      ensures FieldsValid(f)
    {
      ReportedFields(ValueOf(cutoffFreqParam), ValueOf(filterTypeParam), ValueOf(bypassParam))
    }

    /** A new controller has no parameter objects yet. */
    constructor ()
      ensures Valid()
      ensures filterTypeParam == null && cutoffFreqParam == null && bypassParam == null
    {
      filterTypeParam := null;
      cutoffFreqParam := null;
      bypassParam := null;
    }

    /**
      Creates the three range parameters (type 0..1 default 0, cutoff
      20..20000 default 1000, bypass 0..1 default 0) when the base class's
      initialisation, passed in as `baseResult`, is kResultTrue (the same code
      as kResultOk); the result is
      the base class's.
    */
    method Initialize(baseResult: TResult) returns (result: TResult)
      requires Valid()
      modifies this
      ensures Valid() && result == baseResult
      ensures baseResult == ResultOk ==>
        filterTypeParam != null && fresh(filterTypeParam) && filterTypeParam.normalized == RangeNormalized(0.0, 1.0, 0.0)
        && cutoffFreqParam != null && fresh(cutoffFreqParam) && cutoffFreqParam.normalized == RangeNormalized(20.0, 20000.0, 1000.0)
        && bypassParam != null && fresh(bypassParam) && bypassParam.normalized == RangeNormalized(0.0, 1.0, 0.0)
      ensures baseResult != ResultOk ==>
        filterTypeParam == old(filterTypeParam) && cutoffFreqParam == old(cutoffFreqParam) && bypassParam == old(bypassParam)
    {
      result := baseResult;
      if result == ResultOk {
        filterTypeParam := new Parameter(RangeNormalized(0.0, 1.0, 0.0));
        cutoffFreqParam := new Parameter(RangeNormalized(20.0, 20000.0, 1000.0));
        bypassParam := new Parameter(RangeNormalized(0.0, 1.0, 0.0));
      }
    }

    /**
      Reads cutoff (float), type (int32) and bypass (float) in that order. A
      missing stream or any failed read gives kResultFalse before any
      parameter changes. Otherwise the cutoff is stored divided by 20000, type
      and bypass as read, and a parameter object that does not exist is
      skipped.
    */
    method SetComponentState(state: Option<Stream>) returns (result: TResult)
      requires Valid()
      modifies Params()
      ensures Valid()
      ensures state.None? || DecodeControllerState(state.value).None? ==>
        result == ResultFalse && unchanged(Params())
      ensures state.Some? && DecodeControllerState(state.value).Some? ==>
        var f := DecodeControllerState(state.value).value;
        result == ResultOk
        && (cutoffFreqParam != null ==> cutoffFreqParam.normalized == NormalizeCutoff(f.cutoff))
        && (filterTypeParam != null ==> filterTypeParam.normalized == f.filterType as real)
        && (bypassParam != null ==> bypassParam.normalized == f.bypass)
    {
      if state.None? {
        return ResultFalse;
      }
      var cutoffRead := ReadFloat(state.value);
      if cutoffRead.None? {
        return ResultFalse;
      }
      var typeRead := ReadInt32(cutoffRead.value.1);
      if typeRead.None? {
        return ResultFalse;
      }
      var bypassRead := ReadFloat(typeRead.value.1);
      if bypassRead.None? {
        return ResultFalse;
      }
      var savedCutoff, savedType, savedBypass := cutoffRead.value.0, typeRead.value.0, bypassRead.value.0;
      if cutoffFreqParam != null {
        cutoffFreqParam.normalized := savedCutoff / 20000.0;
      }
      if filterTypeParam != null {
        filterTypeParam.normalized := savedType as real;
        assert TruncateToInt(savedType as real) == savedType;
      }
      if bypassParam != null {
        bypassParam.normalized := savedBypass;
      }
      result := ResultOk;
    }

    /** Restoring the controller's own state is the same as synchronising from the component state. */
    method SetState(state: Option<Stream>) returns (result: TResult)
      requires Valid()
      modifies Params()
      ensures Valid()
      ensures state.None? || DecodeControllerState(state.value).None? ==>
        result == ResultFalse && unchanged(Params())
      ensures state.Some? && DecodeControllerState(state.value).Some? ==>
        var f := DecodeControllerState(state.value).value;
        result == ResultOk
        && (cutoffFreqParam != null ==> cutoffFreqParam.normalized == NormalizeCutoff(f.cutoff))
        && (filterTypeParam != null ==> filterTypeParam.normalized == f.filterType as real)
        && (bypassParam != null ==> bypassParam.normalized == f.bypass)
    {
      result := SetComponentState(state);
    }

    /**
      Appends cutoff = value * 20000, type = value truncated and bypass to the
      stream, with 1000 / 0 / 0 for a parameter object that does not exist; a
      missing stream gives kResultFalse.
    */
    method GetState(state: Option<Stream>) returns (result: TResult, written: Option<Stream>)
      requires Valid()
      ensures state.None? ==> result == ResultFalse && written.None?
      ensures state.Some? ==> result == ResultOk && written == Some(state.value + EncodeControllerState(ReportedState()))
    {
      if state.None? {
        return ResultFalse, None;
      }
      var cutoff := if cutoffFreqParam != null then cutoffFreqParam.normalized * 20000.0 else 1000.0;
      var filterType := if filterTypeParam != null then TruncateToInt(filterTypeParam.normalized) else 0;
      var bypass := if bypassParam != null then bypassParam.normalized else 0.0;
      var s := state.value + FloatOctets(cutoff);
      s := s + Int32Octets(filterType);
      s := s + FloatOctets(bypass);
      assert s == state.value + EncodeControllerState(ControllerFields(cutoff, filterType, bypass));
      result, written := ResultOk, Some(s);
    }
  }
}
