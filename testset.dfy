/**
 * The generated envelopes of `ThriftTest.testSet` (package thrifttest): the
 * i32 set value list, the set reader, the arguments struct (field 1,
 * `thing`), the result struct (field 0, `success`, which must be set), and
 * the helper closures.
 */
module TestSet {
  import opened Wrappers
  import opened Errors
  import opened Wire

  type I32Set = set<int32>

  const ResultTypeName: string := "TestSetResult"
  const NonVoidError: Error := Plain("expected a non-void result")

  /**
   * `_Set_I32_ValueList.ForEach`: `f` is applied to the elements as i32
   * values, in the order the Go map yields them, until one call fails; that
   * error is returned, and nil when every call succeeds.
   */
  method ForEach(elems: I32Set, f: Value -> Option<Error>) returns (err: Option<Error>)
    ensures err.None? <==> forall x :: x in elems ==> f(VI32(x)).None?
    ensures err.Some? ==> exists x :: x in elems && f(VI32(x)) == err
  {
    var rest := elems;
    while rest != {}
      invariant rest <= elems
      invariant forall x :: x in elems - rest ==> f(VI32(x)).None?
      decreases rest
    {
      var x :| x in rest;
      var w := VI32(x);
      err := f(w);
      if err.Some? {
        return;
      }
      rest := rest - {x};
    }
    err := None;
  }

  /** The elements a decoded list yields, as a set. */
  function Elements(xs: seq<int32>): I32Set {
    set i | 0 <= i < |xs| :: xs[i]
  }

  /**
   * What `_Set_I32_Read` returns: nothing and no error for a set whose
   * elements are not i32; otherwise every element it is given, and the
   * error the iteration ended with.
   */
  function SetI32Read(s: WireSet): Read<Option<I32Set>> {
    if s.valueType != TI32 then Read(None, None)
    else
      match s.items
      case I32List(elems) => Read(Some(elems), None)
      case Decoded(xs, failure) => Read(Some(Elements(xs)), failure)
  }

  /** `_Set_I32_Read`, with the insertion its callback makes inlined in the iteration. */
  method ReadSetI32(s: WireSet) returns (o: Option<I32Set>, err: Option<Error>)
    ensures Read(o, err) == SetI32Read(s)
  {
    if s.valueType != TI32 {
      return None, None;
    }
    var acc: I32Set := {};
    match s.items {
      case I32List(elems) =>
        var rest := elems;
        while rest != {}
          invariant rest <= elems && acc == elems - rest
          decreases rest
        {
          var x :| x in rest;
          acc := acc + {x};
          rest := rest - {x};
        }
        assert acc == elems;
        err := None;
      case Decoded(xs, failure) =>
        var i := 0;
        while i < |xs|
          invariant 0 <= i <= |xs| && acc == Elements(xs[..i])
        {
          assert xs[..i + 1] == xs[..i] + [xs[i]];
          ElementsAppend(xs[..i], xs[i]);
          acc := acc + {xs[i]};
          i := i + 1;
        }
        assert xs[..i] == xs;
        assert acc == Elements(xs);
        err := failure;
    }
    o := Some(acc);
  }

  lemma ElementsAppend(xs: seq<int32>, x: int32)
    ensures Elements(xs + [x]) == Elements(xs) + {x}
  {
    var ys := xs + [x];
    forall y | y in Elements(ys) ensures y in Elements(xs) + {x} {
      var i :| 0 <= i < |ys| && ys[i] == y;
      if i < |xs| {
        assert xs[i] == y;
      }
    }
    forall y | y in Elements(xs) ensures y in Elements(ys) {
      var i :| 0 <= i < |xs| && xs[i] == y;
      assert ys[i] == y;
    }
    assert ys[|xs|] == x;
  }

  function SetValue(elems: I32Set): Value {
    VSet(WireSet(TI32, |elems|, I32List(elems)))
  }

  /** What `ToWire` of the arguments gives. */
  function ArgsWire(thing: Option<I32Set>): Value {
    if thing.Some? then VStruct([Field(1, SetValue(thing.value))]) else VStruct([])
  }

  /** What `ToWire` of the result gives, and its error. */
  function ResultWire(success: Option<I32Set>): Read<Value> {
    if success.Some? then Read(VStruct([Field(0, SetValue(success.value))]), None)
    else Read(Zero, Some(FieldCountError(ResultTypeName, 0)))
  }

  const ReadSet: Value -> Read<Option<I32Set>> := v => SetI32Read(GetSet(v))

  /** What `FromWire` of the arguments leaves in `thing`, which held `cur`, and returns. */
  function ArgsFromWire(w: Value, cur: Option<I32Set>): Read<Option<I32Set>> {
    Scan(GetStruct(w), 1, TSet, ReadSet, cur)
  }

  /** What `FromWire` of the result leaves in `success`, which held `cur`, and returns. */
  function ResultFromWire(w: Value, cur: Option<I32Set>): Read<Option<I32Set>> {
    var r := Scan(GetStruct(w), 0, TSet, ReadSet, cur);
    if r.err.Some? then r
    else if r.value.None? then Read(None, Some(FieldCountError(ResultTypeName, 0)))
    else r
  }

  class TestSetArgs {
    var thing: Option<I32Set>

    /** `TestSetHelper.Args`. */
    constructor(thing: Option<I32Set>)
      ensures this.thing == thing
    {
      this.thing := thing;
    }

    method ToWire() returns (w: Value, err: Option<Error>)
      ensures w == ArgsWire(thing) && err.None?
    {
      var fields := new Field[1];
      var i := 0;
      if thing.Some? {
        fields[i] := Field(1, VSet(WireSet(TI32, |thing.value|, I32List(thing.value))));
        i := i + 1;
      }
      w := VStruct(fields[..i]);
      err := None;
    }

    method FromWire(w: Value) returns (err: Option<Error>)
      modifies this
      ensures var r := ArgsFromWire(w, old(thing)); thing == r.value && err == r.err
    {
      var fields := GetStruct(w);
      var i := 0;
      while i < |fields|
        invariant 0 <= i <= |fields|
        invariant ArgsFromWire(w, old(thing)) == Scan(fields[i..], 1, TSet, ReadSet, thing)
      {
        assert fields[i..][0] == fields[i] && fields[i..][1..] == fields[i + 1..];
        var field := fields[i];
        if field.id == 1 && TypeOf(field.value) == TSet {
          var o, e := ReadSetI32(GetSet(field.value));
          thing := o;
          if e.Some? {
            return e;
          }
        }
        i := i + 1;
      }
      err := None;
    }

    function MethodName(): string {
      "testSet"
    }

    function EnvelopeType(): Wire.EnvelopeType {
      Call
    }
  }

  class TestSetResult {
    var success: Option<I32Set>

    constructor(success: Option<I32Set>)
      ensures this.success == success
    {
      this.success := success;
    }

    method ToWire() returns (w: Value, err: Option<Error>)
      ensures Read(w, err) == ResultWire(success)
    {
      var fields := new Field[1];
      var i := 0;
      if success.Some? {
        fields[i] := Field(0, VSet(WireSet(TI32, |success.value|, I32List(success.value))));
        i := i + 1;
      }
      if i != 1 {
        return Zero, Some(FieldCountError(ResultTypeName, i));
      }
      assert fields[..i] == [fields[0]];
      w := VStruct(fields[..i]);
      err := None;
    }

    method FromWire(w: Value) returns (err: Option<Error>)
      modifies this
      ensures var r := ResultFromWire(w, old(success)); success == r.value && err == r.err
    {
      var fields := GetStruct(w);
      var i := 0;
      while i < |fields|
        invariant 0 <= i <= |fields|
        invariant Scan(GetStruct(w), 0, TSet, ReadSet, old(success)) == Scan(fields[i..], 0, TSet, ReadSet, success)
      {
        assert fields[i..][0] == fields[i] && fields[i..][1..] == fields[i + 1..];
        var field := fields[i];
        if field.id == 0 && TypeOf(field.value) == TSet {
          var o, e := ReadSetI32(GetSet(field.value));
          success := o;
          if e.Some? {
            return e;
          }
        }
        i := i + 1;
      }
      var count := 0;
      if success.Some? {
        count := count + 1;
      }
      if count != 1 {
        return Some(FieldCountError(ResultTypeName, count));
      }
      err := None;
    }

    function MethodName(): string {
      "testSet"
    }

    function EnvelopeType(): Wire.EnvelopeType {
      Reply
    }
  }

  /** `TestSetHelper.IsException`: the method declares no exceptions. */
  function IsException(err: Error): (r: bool)
    ensures !r
  {
    false
  }

  /** `TestSetHelper.WrapResponse`. */
  method WrapResponse(success: Option<I32Set>, err: Option<Error>) returns (r: TestSetResult?, e: Option<Error>)
    ensures err.None? ==> r != null && fresh(r) && r.success == success && e.None?
    ensures err.None? && success.Some? ==> UnwrapResponse(r) == Read(success, None)
    ensures err.Some? ==> r == null && e == err
  {
    if err.None? {
      r := new TestSetResult(success);
      return r, None;
    }
    return null, err;
  }

  /** `TestSetHelper.UnwrapResponse`: the set and the error. */
  function UnwrapResponse(result: TestSetResult): (r: Read<Option<I32Set>>)
    reads result
    ensures r.err.None? <==> result.success.Some?
    ensures r.err.None? ==> r.value == result.success
    ensures r.err.Some? ==> r == Read(None, Some(NonVoidError)) && Text(r.err.value) == "expected a non-void result"
  {
    if result.success.Some? then Read(result.success, None) else Read(None, Some(NonVoidError))
  }

  // ---------------------------------------------------------------------------
  // Properties

  /**
   * A set of another element type reads as nil without an error; a set of
   * i32 reads as a set holding exactly the elements iterated, with the
   * error the iteration ended with.
   */
  lemma SetI32ReadEffect(s: WireSet)
    ensures var r := SetI32Read(s);
      && (s.valueType != TI32 ==> r == Read(None, None))
      && (s.valueType == TI32 ==> r.value.Some?)
      && (s.valueType == TI32 && s.items.I32List? ==> r == Read(Some(s.items.elems), None))
      && (s.valueType == TI32 && s.items.Decoded? ==>
            r.err == s.items.failure
            && forall x :: x in r.value.value <==> exists i :: 0 <= i < |s.items.i32s| && s.items.i32s[i] == x)
  {
  }

  /** The arguments are a struct with field 1 holding an i32 set of the right size when it is set, and no field otherwise. */
  lemma ArgsWireShape(thing: Option<I32Set>)
    ensures var w := ArgsWire(thing);
      && w.VStruct? && |w.fields| == (if thing.Some? then 1 else 0)
      && (thing.Some? ==>
            w.fields[0].id == 1 && TypeOf(w.fields[0].value) == TSet
            && w.fields[0].value.elements.valueType == TI32
            && w.fields[0].value.elements.size == |thing.value|)
  {
  }

  /**
   * Decoding encoded arguments gives the same set; with no set, the
   * receiver keeps whatever it held.
   */
  lemma ArgsRoundTrip(thing: Option<I32Set>, cur: Option<I32Set>)
    ensures ArgsFromWire(ArgsWire(thing), cur) == Read(if thing.Some? then thing else cur, None)
  {
    if thing.Some? {
      ScanOne(Field(1, SetValue(thing.value)), 1, TSet, ReadSet, cur);
    }
  }

  /** A field 1 holding a set of non-i32 elements clears `thing` without an error. */
  lemma ArgsNonI32SetIsNil(t: Type, size: nat, items: ValueList, cur: Option<I32Set>)
    requires t != TI32
    ensures ArgsFromWire(VStruct([Field(1, VSet(WireSet(t, size, items)))]), cur) == Read(None, None)
  {
    ScanOne(Field(1, VSet(WireSet(t, size, items))), 1, TSet, ReadSet, cur);
  }

  /**
   * A result without a set cannot be encoded; a result with one encodes as
   * field 0, which decodes back to the set.
   */
  lemma ResultRoundTrip(success: Option<I32Set>, cur: Option<I32Set>)
    ensures success.None? ==> ResultWire(success) == Read(Zero, Some(FieldCountError(ResultTypeName, 0)))
    ensures success.Some? ==>
      && ResultWire(success) == Read(VStruct([Field(0, SetValue(success.value))]), None)
      && ResultFromWire(ResultWire(success).value, cur) == Read(success, None)
  {
    if success.Some? {
      ScanOne(Field(0, SetValue(success.value)), 0, TSet, ReadSet, cur);
    }
  }

  /** Decoding a result succeeds only with a set in `success`. */
  lemma ResultRequiresSuccess(w: Value, cur: Option<I32Set>)
    ensures ResultFromWire(w, cur).err.None? ==> ResultFromWire(w, cur).value.Some?
  {
  }

  /**
   * A field 0 holding a set of non-i32 elements reads as nil, so the result
   * is rejected with the exactly-one-field error, whatever the receiver held.
   */
  lemma ResultNonI32SetRejected(cur: Option<I32Set>, t: Type, size: nat, items: ValueList)
    requires t != TI32
    ensures ResultFromWire(VStruct([Field(0, VSet(WireSet(t, size, items)))]), cur)
         == Read(None, Some(FieldCountError(ResultTypeName, 0)))
  {
    ScanOne(Field(0, VSet(WireSet(t, size, items))), 0, TSet, ReadSet, cur);
  }

  /** Both envelopes name the method `testSet`; the arguments travel in a call, the result in a reply. */
  lemma Envelopes(a: TestSetArgs, r: TestSetResult)
    ensures a.MethodName() == r.MethodName() == "testSet"
    ensures a.EnvelopeType() == Call && r.EnvelopeType() == Reply
  {
  }
}
