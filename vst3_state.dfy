/**
  The little-endian state streams of the VST3 processor and edit controller.

  A stream is a sequence of octets. 32-bit integers are stored exactly, in
  little-endian two's complement. A 32-bit float is an opaque four-octet
  field: `FloatLane(f, i)` is octet i of the encoding of f, so a float written
  and read back at the same position is recovered, and no IEEE-754 bit
  pattern is modelled.
*/
module Vst3State {
  import opened Wrappers
  import opened Numeric

  newtype byte = x: int | 0 <= x < 256

  datatype Octet = Byte(value: byte) | FloatLane(float: real, lane: nat)

  type Stream = seq<Octet>

  /**
    Result codes of the VST3 interfaces used here. kResultTrue is the same
    code as kResultOk, so both are `ResultOk`; `ResultError` stands for any
    other failure code a base class may report.
  */
  datatype TResult = ResultOk | ResultFalse | ResultError

  const TwoTo32: int := 0x1_0000_0000
  const TwoTo31: int := 0x8000_0000

  predicate IsInt32(n: int)
  {
    -TwoTo31 <= n < TwoTo31
  }

  /** The numeric value an octet contributes to an integer field; float octets read as 0. */
  function OctetValue(o: Octet): byte
  {
    match o
    case Byte(b) => b
    case FloatLane(_, _) => 0
  }

  /** Little-endian two's complement encoding of a 32-bit integer. */
  function Int32Octets(n: int): (s: Stream)
    requires IsInt32(n)
    ensures |s| == 4 && forall i :: 0 <= i < 4 ==> s[i].Byte?
  {
    var u := if n < 0 then n + TwoTo32 else n;
    [Byte((u % 256) as byte), Byte((u / 256 % 256) as byte),
     Byte((u / 65536 % 256) as byte), Byte((u / 16777216) as byte)]
  }

  /** The 32-bit integer four octets hold, least significant first. */
  function Int32Value(s: Stream): (n: int)
    requires |s| == 4
    ensures IsInt32(n)
  {
    var u := OctetValue(s[0]) as int + 256 * OctetValue(s[1]) as int
           + 65536 * OctetValue(s[2]) as int + 16777216 * OctetValue(s[3]) as int;
    if u < TwoTo31 then u else u - TwoTo32
  }

  /** The four-octet field of a float. */
  function FloatOctets(f: real): (s: Stream)
    ensures |s| == 4
  {
    [FloatLane(f, 0), FloatLane(f, 1), FloatLane(f, 2), FloatLane(f, 3)]
  }

  /** The float four octets hold; a field that is not one float's four lanes in order reads as 0. */
  function FloatValue(s: Stream): real
    requires |s| == 4
  {
    if s[0].FloatLane? && s == FloatOctets(s[0].float) then s[0].float else 0.0
  }

  /** Reads a 32-bit float; the read fails when fewer than four octets remain. */
  function ReadFloat(s: Stream): (r: Option<(real, Stream)>)
    ensures r.None? <==> |s| < 4
    ensures r.Some? ==> r.value.1 == s[4..]
  {
    if |s| < 4 then None else Some((FloatValue(s[..4]), s[4..]))
  }

  /** Reads a 32-bit integer; the read fails when fewer than four octets remain. */
  function ReadInt32(s: Stream): (r: Option<(int, Stream)>)
    ensures r.None? <==> |s| < 4
    ensures r.Some? ==> IsInt32(r.value.0) && r.value.1 == s[4..]
  {
    if |s| < 4 then None else Some((Int32Value(s[..4]), s[4..]))
  }

  /** An integer written and read back is recovered, and the rest of the stream follows. */
  lemma Int32RoundTrip(n: int, rest: Stream)
    requires IsInt32(n)
    ensures ReadInt32(Int32Octets(n) + rest) == Some((n, rest))
  {
    var s := Int32Octets(n) + rest;
    assert s[..4] == Int32Octets(n);
    assert s[4..] == rest;
    var u := if n < 0 then n + TwoTo32 else n;
    Int32Digits(u);
  }

  /** The four base-256 digits of 0 <= u < 2^32 recombine to u. */
  lemma Int32Digits(u: int)
    requires 0 <= u < TwoTo32
    ensures (u % 256) + 256 * (u / 256 % 256) + 65536 * (u / 65536 % 256) + 16777216 * (u / 16777216) == u
    ensures 0 <= u / 16777216 < 256
  {
    var q1 := u / 256;
    var q2 := q1 / 256;
    var q3 := q2 / 256;
    assert u == u % 256 + 256 * q1;
    assert q1 == q1 % 256 + 256 * q2;
    assert q2 == q2 % 256 + 256 * q3;
    assert u / 65536 == q2;
    assert u / 16777216 == q3;
  }

  /** A float written and read back is recovered, and the rest of the stream follows. */
  lemma FloatRoundTrip(f: real, rest: Stream)
    ensures ReadFloat(FloatOctets(f) + rest) == Some((f, rest))
  {
    var s := FloatOctets(f) + rest;
    assert s[..4] == FloatOctets(f);
    assert s[4..] == rest;
  }

  /** The processor's state: the cutoff (float) followed by the filter type (int32). */
  function EncodeProcessorState(cutoff: real, filterType: int): (s: Stream)
    requires IsInt32(filterType)
    ensures |s| == 8
  {
    FloatOctets(cutoff) + Int32Octets(filterType)
  }

  /** The processor's state read: cutoff, then type; None as soon as a read fails. */
  function DecodeProcessorState(s: Stream): (r: Option<(real, int)>)
    ensures r.None? <==> |s| < 8
    ensures r.Some? ==> IsInt32(r.value.1)
  {
    match ReadFloat(s)
    case None => None
    case Some((cutoff, afterCutoff)) =>
      match ReadInt32(afterCutoff)
      case None => None
      case Some((filterType, _)) => Some((cutoff, filterType))
  }

  /** Decoding what the processor encodes gives back its cutoff and type, whatever follows. */
  lemma ProcessorStateRoundTrip(cutoff: real, filterType: int, rest: Stream)
    requires IsInt32(filterType)
    ensures DecodeProcessorState(EncodeProcessorState(cutoff, filterType) + rest) == Some((cutoff, filterType))
  {
    var s := EncodeProcessorState(cutoff, filterType) + rest;
    assert s == FloatOctets(cutoff) + (Int32Octets(filterType) + rest);
    FloatRoundTrip(cutoff, Int32Octets(filterType) + rest);
    Int32RoundTrip(filterType, rest);
  }

  /** The three fields of the controller's state, in stream order. */
  datatype ControllerFields = ControllerFields(cutoff: real, filterType: int, bypass: real)

  predicate FieldsValid(f: ControllerFields)
  {
    IsInt32(f.filterType)
  }

  /** The controller's state: cutoff (float), type (int32), bypass (float). */
  function EncodeControllerState(f: ControllerFields): (s: Stream)
    requires FieldsValid(f)
    ensures |s| == 12
  {
    FloatOctets(f.cutoff) + Int32Octets(f.filterType) + FloatOctets(f.bypass)
  }

  /** The controller's three reads in order; None as soon as one fails. */
  function DecodeControllerState(s: Stream): (r: Option<ControllerFields>)
    ensures r.None? <==> |s| < 12
    ensures r.Some? ==> FieldsValid(r.value)
  {
    match ReadFloat(s)
    case None => None
    case Some((cutoff, afterCutoff)) =>
      match ReadInt32(afterCutoff)
      case None => None
      case Some((filterType, afterType)) =>
        match ReadFloat(afterType)
        case None => None
        case Some((bypass, _)) => Some(ControllerFields(cutoff, filterType, bypass))
  }

  /** Decoding what the controller encodes gives back the three fields, whatever follows. */
  lemma ControllerStateRoundTrip(f: ControllerFields, rest: Stream)
    requires FieldsValid(f)
    ensures DecodeControllerState(EncodeControllerState(f) + rest) == Some(f)
  {
    var s := EncodeControllerState(f) + rest;
    var tail := FloatOctets(f.bypass) + rest;
    assert s == FloatOctets(f.cutoff) + (Int32Octets(f.filterType) + tail);
    FloatRoundTrip(f.cutoff, Int32Octets(f.filterType) + tail);
    Int32RoundTrip(f.filterType, tail);
    FloatRoundTrip(f.bypass, rest);
  }

  /** The controller's stored cutoff: the saved frequency divided by 20000. */
  function NormalizeCutoff(cutoff: real): (normalized: real)
    ensures normalized * 20000.0 == cutoff
  {
    cutoff / 20000.0
  }

  /**
    The fields the controller's getState reports from its three parameters'
    normalised values (None for a parameter object that does not exist):
    cutoff = value * 20000 or 1000, type = value truncated or 0, bypass = value or 0.
  */
  function ReportedFields(cutoff: Option<real>, filterType: Option<real>, bypass: Option<real>): (f: ControllerFields)
    ensures cutoff.None? ==> f.cutoff == 1000.0
    ensures filterType.None? ==> f.filterType == 0
    ensures bypass.None? ==> f.bypass == 0.0
  {
    ControllerFields(
      if cutoff.Some? then cutoff.value * 20000.0 else 1000.0,
      if filterType.Some? then TruncateToInt(filterType.value) else 0,
      if bypass.Some? then bypass.value else 0.0)
  }

  /**
    What the controller stores from a decoded state and then reports gives
    back the decoded fields: c / 20000 * 20000 = c, and a whole type survives
    the float round trip.
  */
  lemma StoredFieldsReported(f: ControllerFields)
    ensures ReportedFields(Some(NormalizeCutoff(f.cutoff)), Some(f.filterType as real), Some(f.bypass)) == f
  {
    assert TruncateToInt(f.filterType as real) == f.filterType;
  }

  /**
    As written, the controller cannot read the processor's state: the
    processor writes two fields (8 octets) and the controller needs three.
  */
  lemma ProcessorStateRejectedByController(cutoff: real, filterType: int)
    requires IsInt32(filterType)
    ensures DecodeControllerState(EncodeProcessorState(cutoff, filterType)) == None
  {
  }

  /**
    A component-state read that accepts the processor's two fields, taking
    the bypass flag as 0 when it is absent, and reads all three when present.
  */
  function DecodeComponentState(s: Stream): (r: Option<ControllerFields>)
    ensures r.None? <==> |s| < 8
    ensures 12 <= |s| ==> r == DecodeControllerState(s)
  {
    if 12 <= |s| then DecodeControllerState(s)
    else
      match DecodeProcessorState(s)
      case None => None
      case Some((cutoff, filterType)) => Some(ControllerFields(cutoff, filterType, 0.0))
  }

  /** The corrected read recovers the processor's cutoff and type from exactly what it writes. */
  lemma ComponentStateFromProcessor(cutoff: real, filterType: int)
    requires IsInt32(filterType)
    ensures DecodeComponentState(EncodeProcessorState(cutoff, filterType)) == Some(ControllerFields(cutoff, filterType, 0.0))
  {
    ProcessorStateRoundTrip(cutoff, filterType, []);
    assert EncodeProcessorState(cutoff, filterType) + [] == EncodeProcessorState(cutoff, filterType);
  }
}
