/**
 * The part of thriftrw's `wire` package the generated envelopes use: a
 * `wire.Value` with its struct, map, set and scalar cases, the envelope
 * type, and the field scan every generated `FromWire` performs.
 */
module Wire {
  import opened Wrappers
  import opened Errors

  newtype int8 = x: int | -0x80 <= x < 0x80
  newtype int16 = x: int | -0x8000 <= x < 0x8000
  newtype int32 = x: int | -0x8000_0000 <= x < 0x8000_0000
  newtype int64 = x: int | -0x8000_0000_0000_0000 <= x < 0x8000_0000_0000_0000

  /** `wire.Type`; `TZero` is the type of the zero `wire.Value{}`. */
  datatype Type = TZero | TBool | TI8 | TDouble | TI16 | TI32 | TI64 | TBinary | TStruct | TMap | TSet | TList

  /** `wire.Type` as its number in the Thrift binary protocol. */
  function TypeCode(t: Type): nat {
    match t
    case TZero => 0 case TBool => 2 case TI8 => 3 case TDouble => 4 case TI16 => 6
    case TI32 => 8 case TI64 => 10 case TBinary => 11 case TStruct => 12
    case TMap => 13 case TSet => 14 case TList => 15
  }

  datatype Value =
    | Zero
    | VBool(b: bool)
    | VI8(i8: int8)
    | VDouble(bits: bv64)
    | VI16(i16: int16)
    | VI32(i32: int32)
    | VI64(i64: int64)
    | VBinary(bytes: seq<bv8>)
    | VStruct(fields: seq<Field>)
    | VMap(entries: MapItemList)
    | VSet(elements: WireSet)
    | VList(valueType: Type, values: seq<Value>)

  datatype Field = Field(id: int16, value: Value)

  /** `wire.MapItemList`: key and value types and the pairs it yields. */
  datatype MapItemList = MapItemList(keyType: Type, valueType: Type, pairs: seq<(Value, Value)>)

  /**
   * `wire.ValueList` behind a set of i32: the generated `_Set_I32_ValueList`
   * over a Go set, or a list a decoder produced, as the elements it yields in
   * order and the decoding error it ends with, if any.
   */
  datatype ValueList = I32List(elems: set<int32>) | Decoded(i32s: seq<int32>, failure: Option<Error>)

  /** `wire.Set`. */
  datatype WireSet = WireSet(valueType: Type, size: nat, items: ValueList)

  /** `wire.EnvelopeType`. */
  datatype EnvelopeType = Call | Reply | Exception | OneWay

  function TypeOf(v: Value): Type {
    match v
    case Zero => TZero
    case VBool(_) => TBool
    case VI8(_) => TI8
    case VDouble(_) => TDouble
    case VI16(_) => TI16
    case VI32(_) => TI32
    case VI64(_) => TI64
    case VBinary(_) => TBinary
    case VStruct(_) => TStruct
    case VMap(_) => TMap
    case VSet(_) => TSet
    case VList(_, _) => TList
  }

  /** The fields of a struct value; no fields for any other value. */
  function GetStruct(v: Value): seq<Field> {
    if v.VStruct? then v.fields else []
  }

  /** The pairs of a map value; an empty list for any other value. */
  function GetMap(v: Value): MapItemList {
    if v.VMap? then v.entries else MapItemList(TZero, TZero, [])
  }

  /** The set of a set value; an empty set of no type for any other value. */
  function GetSet(v: Value): WireSet {
    if v.VSet? then v.elements else WireSet(TZero, 0, Decoded([], None))
  }

  /** What a generated reader returns: the value, and an error. */
  datatype Read<T> = Read(value: T, err: Option<Error>)

  function FieldCountError(typeName: string, count: nat): Error {
    Plain(typeName + " should have exactly one field: got " + DecimalText(count) + " fields")
  }

  predicate Matches(f: Field, id: int16, ty: Type) {
    f.id == id && TypeOf(f.value) == ty
  }

  /**
   * The loop of a generated `FromWire` for one field: every field with the
   * id and type is read into the receiver, in order; a read error is
   * returned at once, with the receiver holding what that read gave.
   */
  function Scan<T>(fields: seq<Field>, id: int16, ty: Type, read: Value -> Read<T>, cur: T): Read<T>
    decreases |fields|
  {
    if fields == [] then Read(cur, None)
    else if Matches(fields[0], id, ty) then
      var r := read(fields[0].value);
      if r.err.Some? then r else Scan(fields[1..], id, ty, read, r.value)
    else Scan(fields[1..], id, ty, read, cur)
  }

  /** Fields with another id or another type are ignored. */
  lemma {:induction false} ScanIgnoresOthers<T>(fields: seq<Field>, id: int16, ty: Type, read: Value -> Read<T>, cur: T)
    requires forall i :: 0 <= i < |fields| ==> !Matches(fields[i], id, ty)
    ensures Scan(fields, id, ty, read, cur) == Read(cur, None)
    decreases |fields|
  {
    if fields != [] {
      ScanIgnoresOthers(fields[1..], id, ty, read, cur);
    }
  }

  /** Scanning two runs of fields is scanning the first, then the second from where it left. */
  lemma {:induction false} ScanAppend<T>(xs: seq<Field>, ys: seq<Field>, id: int16, ty: Type, read: Value -> Read<T>, cur: T)
    ensures Scan(xs + ys, id, ty, read, cur)
         == (var r := Scan(xs, id, ty, read, cur);
             if r.err.Some? then r else Scan(ys, id, ty, read, r.value))
    decreases |xs|
  {
    if xs == [] {
      assert xs + ys == ys;
    } else {
      assert (xs + ys)[0] == xs[0];
      assert (xs + ys)[1..] == xs[1..] + ys;
      if Matches(xs[0], id, ty) {
        var r := read(xs[0].value);
        if r.err.None? {
          ScanAppend(xs[1..], ys, id, ty, read, r.value);
        }
      } else {
        ScanAppend(xs[1..], ys, id, ty, read, cur);
      }
    }
  }

  /** A single matching field gives exactly what reading it gives. */
  lemma ScanOne<T>(f: Field, id: int16, ty: Type, read: Value -> Read<T>, cur: T)
    ensures Scan([f], id, ty, read, cur) == if Matches(f, id, ty) then read(f.value) else Read(cur, None)
  {
    assert [f][1..] == [];
  }

  /**
   * A later matching field overwrites what earlier ones gave; a read error
   * before it stops the scan there.
   */
  lemma ScanLaterFieldWins<T>(xs: seq<Field>, f: Field, id: int16, ty: Type, read: Value -> Read<T>, cur: T)
    requires Matches(f, id, ty)
    ensures Scan(xs + [f], id, ty, read, cur)
         == if Scan(xs, id, ty, read, cur).err.Some? then Scan(xs, id, ty, read, cur) else read(f.value)
  {
    ScanAppend(xs, [f], id, ty, read, cur);
    ScanOne(f, id, ty, read, Scan(xs, id, ty, read, cur).value);
  }
}
