/**
 * The generated envelopes of `SecondService.blahBlah`, a method with no
 * arguments, no result and no exceptions: both structs are empty, encode as
 * an empty struct and decode from anything.
 */
module BlahBlah {
  import opened Wrappers
  import opened Errors
  import opened Wire

  /** `FromWire`'s loop: every field is looked at, and no id is selected. */
  function IgnoreFields(fields: seq<Field>): Option<Error>
    decreases |fields|
  {
    if fields == [] then None else IgnoreFields(fields[1..])
  }

  datatype BlahBlahArgs = BlahBlahArgs {
    /** An empty struct, without error, which decodes back without error. */
    function ToWire(): (r: Read<Value>)
      ensures r.err.None? && r.value.VStruct? && r.value.fields == []
      ensures FromWire(r.value).None?
    {
      Read(VStruct([]), None)
    }

    /** Every field is skipped, so decoding never fails. */
    function FromWire(w: Value): (err: Option<Error>)
      ensures err.None?
    {
      IgnoreFieldsNeverFails(GetStruct(w));
      IgnoreFields(GetStruct(w))
    }

    /** A struct without fields equals any other. */
    function Equals(rhs: BlahBlahArgs): (r: bool)
      ensures r
    {
      true
    }

    function MethodName(): string {
      "blahBlah"
    }

    function EnvelopeType(): Wire.EnvelopeType {
      Call
    }
  }

  datatype BlahBlahResult = BlahBlahResult {
    /** An empty struct, without error, which decodes back without error. */
    function ToWire(): (r: Read<Value>)
      ensures r.err.None? && r.value.VStruct? && r.value.fields == []
      ensures FromWire(r.value).None?
    {
      Read(VStruct([]), None)
    }

    /** Every field is skipped, so decoding never fails. */
    function FromWire(w: Value): (err: Option<Error>)
      ensures err.None?
    {
      IgnoreFieldsNeverFails(GetStruct(w));
      IgnoreFields(GetStruct(w))
    }

    /** A struct without fields equals any other. */
    function Equals(rhs: BlahBlahResult): (r: bool)
      ensures r
    {
      true
    }

    function MethodName(): string {
      "blahBlah"
    }

    function EnvelopeType(): Wire.EnvelopeType {
      Reply
    }
  }

  /** `String` on a possibly nil arguments pointer: `<nil>`, or the empty struct literal. */
  function ArgsString(v: Option<BlahBlahArgs>): (r: string)
    ensures v.None? ==> r == "<nil>"
    ensures v.Some? ==> r == "SecondService_BlahBlah_Args{}"
  {
    if v.None? then "<nil>" else "SecondService_BlahBlah_Args{" + Join([], ", ") + "}"
  }

  /** `String` on a possibly nil result pointer: `<nil>`, or the empty struct literal. */
  function ResultString(v: Option<BlahBlahResult>): (r: string)
    ensures v.None? ==> r == "<nil>"
    ensures v.Some? ==> r == "SecondService_BlahBlah_Result{}"
  {
    if v.None? then "<nil>" else "SecondService_BlahBlah_Result{" + Join([], ", ") + "}"
  }

  /** `SecondService_BlahBlah_Helper.Args`: a pointer to a new, empty arguments struct, never nil. */
  function Args(): (r: Option<BlahBlahArgs>)
    ensures r.Some?
  {
    Some(BlahBlahArgs)
  }

  /** `SecondService_BlahBlah_Helper.IsException`: the method declares no exceptions. */
  function IsException(err: Error): (r: bool)
    ensures !r
  {
    false
  }

  /**
   * `SecondService_BlahBlah_Helper.WrapResponse`: an empty result for a
   * nil error, and the error passed through otherwise.
   */
  function WrapResponse(err: Option<Error>): (r: (Option<BlahBlahResult>, Option<Error>))
    ensures err.None? <==> r.0.Some?
    ensures r.1 == err
  {
    if err.None? then (Some(BlahBlahResult), None) else (None, err)
  }

  /** `SecondService_BlahBlah_Helper.UnwrapResponse`: a void result unwraps to no error. */
  function UnwrapResponse(result: BlahBlahResult): (err: Option<Error>)
    ensures err.None?
  {
    None
  }

  // ---------------------------------------------------------------------------
  // Properties

  /**
   * The field loop never fails, whatever the fields. The result is nil by
   * construction (the switch has no case), so the induction only unfolds it.
   */
  lemma {:induction false} IgnoreFieldsNeverFails(fields: seq<Field>)
    ensures IgnoreFields(fields) == None
    decreases |fields|
  {
    if fields != [] {
      IgnoreFieldsNeverFails(fields[1..]);
    }
  }

  /** Wrapping no error and unwrapping gives no error back; an error is never wrapped into a result. */
  lemma WrapUnwrap(err: Option<Error>)
    ensures err.None? ==> UnwrapResponse(WrapResponse(err).0.value) == None
    ensures err.Some? ==> WrapResponse(err) == (None, err)
  {
  }

  /** Both envelopes name the method `blahBlah`; the arguments travel in a call, the result in a reply. */
  lemma Envelopes(a: BlahBlahArgs, r: BlahBlahResult)
    ensures a.MethodName() == r.MethodName() == "blahBlah"
    ensures a.EnvelopeType() == Call && r.EnvelopeType() == Reply
  {
  }
}
