/**
 * The generated envelopes of `ThriftTest.testStringMap`: the arguments
 * struct (field 1, `thing`), the result struct (field 0, `success`, which
 * must be set), and the helper closures.
 */
module TestStringMap {
  import opened Wrappers
  import opened Errors
  import opened Wire

  type StringMap = map<string, string>

  const ResultTypeName: string := "ThriftTest_TestStringMap_Result"
  const NonVoidError: Error := Plain("expected a non-void result")

  /** The `_Map_String_String_*` helpers, generated elsewhere. */
  datatype MapHelpers = MapHelpers(
    itemList: StringMap -> MapItemList,              // _Map_String_String_MapItemList
    read: MapItemList -> Read<Option<StringMap>>,    // _Map_String_String_Read
    equals: (StringMap, StringMap) -> bool)          // _Map_String_String_Equals

  /** Reading the item list of a map gives the map back. */
  ghost predicate RoundTrips(h: MapHelpers) {
    forall m :: h.read(h.itemList(m)) == Read(Some(m), None)
  }

  /** The map helper's equality is equality of maps. */
  ghost predicate ExactEquals(h: MapHelpers) {
    forall m1, m2 :: h.equals(m1, m2) <==> m1 == m2
  }

  function MapValue(m: StringMap, h: MapHelpers): Value {
    VMap(h.itemList(m))
  }

  /** What `ToWire` of the arguments gives. */
  function ArgsWire(thing: Option<StringMap>, h: MapHelpers): Value {
    if thing.Some? then VStruct([Field(1, MapValue(thing.value, h))]) else VStruct([])
  }

  /** What `ToWire` of the result gives, and its error. */
  function ResultWire(success: Option<StringMap>, h: MapHelpers): Read<Value> {
    if success.Some? then Read(VStruct([Field(0, MapValue(success.value, h))]), None)
    else Read(Zero, Some(FieldCountError(ResultTypeName, 0)))
  }

  function ReadMap(h: MapHelpers): Value -> Read<Option<StringMap>> {
    v => h.read(GetMap(v))
  }

  /** What `FromWire` of the arguments leaves in `thing`, which held `cur`, and returns. */
  function ArgsFromWire(w: Value, h: MapHelpers, cur: Option<StringMap>): Read<Option<StringMap>> {
    Scan(GetStruct(w), 1, TMap, ReadMap(h), cur)
  }

  /** What `FromWire` of the result leaves in `success`, which held `cur`, and returns. */
  function ResultFromWire(w: Value, h: MapHelpers, cur: Option<StringMap>): Read<Option<StringMap>> {
    var r := Scan(GetStruct(w), 0, TMap, ReadMap(h), cur);
    if r.err.Some? then r
    else if r.value.None? then Read(None, Some(FieldCountError(ResultTypeName, 0)))
    else r
  }

  /** The generated `Equals` on two optional maps. */
  function MapEquals(a: Option<StringMap>, b: Option<StringMap>, h: MapHelpers): bool {
    (a.None? && b.None?) || (a.Some? && b.Some? && h.equals(a.value, b.value))
  }

  class TestStringMapArgs {
    var thing: Option<StringMap>

    /** `ThriftTest_TestStringMap_Helper.Args`. */
    constructor(thing: Option<StringMap>)
      ensures this.thing == thing
    {
      this.thing := thing;
    }

    method ToWire(h: MapHelpers) returns (w: Value, err: Option<Error>)
      ensures w == ArgsWire(thing, h) && err.None?
    {
      var fields := new Field[1];
      var i := 0;
      if thing.Some? {
        fields[i] := Field(1, VMap(h.itemList(thing.value)));
        i := i + 1;
      }
      w := VStruct(fields[..i]);
      err := None;
    }

    method FromWire(w: Value, h: MapHelpers) returns (err: Option<Error>)
      modifies this
      ensures var r := ArgsFromWire(w, h, old(thing)); thing == r.value && err == r.err
    {
      var fields := GetStruct(w);
      var i := 0;
      while i < |fields|
        invariant 0 <= i <= |fields|
        invariant ArgsFromWire(w, h, old(thing)) == Scan(fields[i..], 1, TMap, ReadMap(h), thing)
      {
        assert fields[i..][0] == fields[i] && fields[i..][1..] == fields[i + 1..];
        var field := fields[i];
        if field.id == 1 && TypeOf(field.value) == TMap {
          var r := h.read(GetMap(field.value));
          thing := r.value;
          if r.err.Some? {
            return r.err;
          }
        }
        i := i + 1;
      }
      err := None;
    }

    /** Both unset, or both set and equal by the map helper. */
    function Equals(rhs: TestStringMapArgs, h: MapHelpers): (r: bool)
      reads this, rhs
      ensures thing.None? && rhs.thing.None? ==> r
      ensures thing.None? != rhs.thing.None? ==> !r
      ensures ExactEquals(h) ==> (r <==> thing == rhs.thing)
    {
      MapEquals(thing, rhs.thing, h)
    }

    function MethodName(): string {
      "testStringMap"
    }

    function EnvelopeType(): Wire.EnvelopeType {
      Call
    }
  }

  class TestStringMapResult {
    var success: Option<StringMap>

    constructor(success: Option<StringMap>)
      ensures this.success == success
    {
      this.success := success;
    }

    method ToWire(h: MapHelpers) returns (w: Value, err: Option<Error>)
      ensures Read(w, err) == ResultWire(success, h)
    {
      var fields := new Field[1];
      var i := 0;
      if success.Some? {
        fields[i] := Field(0, VMap(h.itemList(success.value)));
        i := i + 1;
      }
      if i != 1 {
        return Zero, Some(FieldCountError(ResultTypeName, i));
      }
      assert fields[..i] == [fields[0]];
      w := VStruct(fields[..i]);
      err := None;
    }

    method FromWire(w: Value, h: MapHelpers) returns (err: Option<Error>)
      modifies this
      ensures var r := ResultFromWire(w, h, old(success)); success == r.value && err == r.err
    {
      var fields := GetStruct(w);
      var i := 0;
      while i < |fields|
        invariant 0 <= i <= |fields|
        invariant Scan(GetStruct(w), 0, TMap, ReadMap(h), old(success)) == Scan(fields[i..], 0, TMap, ReadMap(h), success)
      {
        assert fields[i..][0] == fields[i] && fields[i..][1..] == fields[i + 1..];
        var field := fields[i];
        if field.id == 0 && TypeOf(field.value) == TMap {
          var r := h.read(GetMap(field.value));
          success := r.value;
          if r.err.Some? {
            return r.err;
          }
        }
        i := i + 1;
      }
      var count := 0;
      if success.Some? {
        count := count + 1;
      }
      if count != 1 {
        return Some(FieldCountError(ResultTypeName, count));
      }
      err := None;
    }

    /** Both unset, or both set and equal by the map helper. */
    function Equals(rhs: TestStringMapResult, h: MapHelpers): (r: bool)
      reads this, rhs
      ensures success.None? && rhs.success.None? ==> r
      ensures success.None? != rhs.success.None? ==> !r
      ensures ExactEquals(h) ==> (r <==> success == rhs.success)
    {
      MapEquals(success, rhs.success, h)
    }

    function MethodName(): string {
      "testStringMap"
    }

    function EnvelopeType(): Wire.EnvelopeType {
      Reply
    }
  }

  /** `ThriftTest_TestStringMap_Helper.IsException`: the method declares no exceptions. */
  function IsException(err: Error): (r: bool)
    ensures !r
  {
    false
  }

  /** `ThriftTest_TestStringMap_Helper.WrapResponse`. */
  method WrapResponse(success: Option<StringMap>, err: Option<Error>) returns (r: TestStringMapResult?, e: Option<Error>)
    ensures err.None? ==> r != null && fresh(r) && r.success == success && e.None?
    ensures err.None? && success.Some? ==> UnwrapResponse(r) == Read(success, None)
    ensures err.Some? ==> r == null && e == err
  {
    if err.None? {
      r := new TestStringMapResult(success);
      return r, None;
    }
    return null, err;
  }

  /** `ThriftTest_TestStringMap_Helper.UnwrapResponse`: the map and the error. */
  function UnwrapResponse(result: TestStringMapResult): (r: Read<Option<StringMap>>)
    reads result
    ensures r.err.None? <==> result.success.Some?
    ensures r.err.None? ==> r.value == result.success
    ensures r.err.Some? ==> r == Read(None, Some(NonVoidError)) && Text(r.err.value) == "expected a non-void result"
  {
    if result.success.Some? then Read(result.success, None) else Read(None, Some(NonVoidError))
  }

  // ---------------------------------------------------------------------------
  // Properties

  /** The arguments are a struct with field 1 holding the map when it is set, and no field otherwise. */
  lemma ArgsWireShape(thing: Option<StringMap>, h: MapHelpers)
    ensures var w := ArgsWire(thing, h);
      && w.VStruct? && |w.fields| == (if thing.Some? then 1 else 0)
      && (forall i :: 0 <= i < |w.fields| ==> w.fields[i].id == 1 && TypeOf(w.fields[i].value) == TMap)
      && (thing.Some? ==> w.fields[0].value == MapValue(thing.value, h))
  {
  }

  /**
   * Decoding encoded arguments gives the map back; with no map, the
   * receiver keeps whatever it held.
   */
  lemma ArgsRoundTrip(thing: Option<StringMap>, h: MapHelpers, cur: Option<StringMap>)
    requires RoundTrips(h)
    ensures ArgsFromWire(ArgsWire(thing, h), h, cur) == Read(if thing.Some? then thing else cur, None)
  {
    if thing.Some? {
      ScanOne(Field(1, MapValue(thing.value, h)), 1, TMap, ReadMap(h), cur);
      assert ReadMap(h)(MapValue(thing.value, h)) == h.read(GetMap(MapValue(thing.value, h)));
      assert h.read(h.itemList(thing.value)) == Read(Some(thing.value), None);
    }
  }

  /** Decoding the arguments reads only fields with id 1 and type map; all others are ignored. */
  lemma ArgsIgnoreOtherFields(w: Value, h: MapHelpers, cur: Option<StringMap>)
    requires forall i :: 0 <= i < |GetStruct(w)| ==> !Matches(GetStruct(w)[i], 1, TMap)
    ensures ArgsFromWire(w, h, cur) == Read(cur, None)
  {
    ScanIgnoresOthers(GetStruct(w), 1, TMap, ReadMap(h), cur);
  }

  /** Of two map fields with id 1 the later one wins, unless reading the earlier one fails. */
  lemma ArgsLaterFieldWins(fields: seq<Field>, m: MapItemList, h: MapHelpers, cur: Option<StringMap>)
    ensures var r := ArgsFromWire(VStruct(fields), h, cur);
      ArgsFromWire(VStruct(fields + [Field(1, VMap(m))]), h, cur) == if r.err.Some? then r else h.read(m)
  {
    ScanLaterFieldWins(fields, Field(1, VMap(m)), 1, TMap, ReadMap(h), cur);
    assert ReadMap(h)(VMap(m)) == h.read(GetMap(VMap(m)));
  }

  /**
   * A result without a map cannot be encoded; a result with one encodes as
   * field 0, which decodes back to the map.
   */
  lemma ResultRoundTrip(success: Option<StringMap>, h: MapHelpers, cur: Option<StringMap>)
    requires RoundTrips(h)
    ensures success.None? ==> ResultWire(success, h) == Read(Zero, Some(FieldCountError(ResultTypeName, 0)))
    ensures success.Some? ==>
      && ResultWire(success, h) == Read(VStruct([Field(0, MapValue(success.value, h))]), None)
      && ResultFromWire(ResultWire(success, h).value, h, cur) == Read(success, None)
  {
    if success.Some? {
      ScanOne(Field(0, MapValue(success.value, h)), 0, TMap, ReadMap(h), cur);
      assert ReadMap(h)(MapValue(success.value, h)) == h.read(GetMap(MapValue(success.value, h)));
      assert h.read(h.itemList(success.value)) == Read(Some(success.value), None);
    }
  }

  /**
   * Decoding a result succeeds only with a map in `success`: a struct with
   * no map field 0 is rejected, for a fresh receiver, with the exactly-one-field error.
   */
  lemma ResultRequiresSuccess(w: Value, h: MapHelpers, cur: Option<StringMap>)
    ensures ResultFromWire(w, h, cur).err.None? ==> ResultFromWire(w, h, cur).value.Some?
    ensures (forall i :: 0 <= i < |GetStruct(w)| ==> !Matches(GetStruct(w)[i], 0, TMap)) ==>
      ResultFromWire(w, h, None) == Read(None, Some(FieldCountError(ResultTypeName, 0)))
  {
    if forall i :: 0 <= i < |GetStruct(w)| ==> !Matches(GetStruct(w)[i], 0, TMap) {
      ScanIgnoresOthers(GetStruct(w), 0, TMap, ReadMap(h), None);
    }
  }

  /** `Equals` holds exactly for two equal maps, or two unset ones, when the map helper's equality is exact. */
  lemma EqualsIsEquality(a: Option<StringMap>, b: Option<StringMap>, h: MapHelpers)
    requires ExactEquals(h)
    ensures MapEquals(a, b, h) <==> a == b
  {
    if a.Some? && b.Some? {
      assert h.equals(a.value, b.value) <==> a.value == b.value;
    }
  }

  /** Both envelopes name the method `testStringMap`; the arguments travel in a call, the result in a reply. */
  lemma Envelopes(a: TestStringMapArgs, r: TestStringMapResult)
    ensures a.MethodName() == r.MethodName() == "testStringMap"
    ensures a.EnvelopeType() == Call && r.EnvelopeType() == Reply
  {
  }
}
