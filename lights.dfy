/**
 * The light record shared with the shaders: its type codes and the byte
 * layout of its fields, on the C++ side (consecutive 4-byte-aligned fields)
 * and under HLSL constant-buffer packing (16-byte registers that a vector
 * may not straddle).
 */
module Lights {
  import opened Wrappers
  import opened Maths

  /** The three LIGHT_TYPE codes. */
  const LightTypeDirectional: int := 0
  const LightTypePoint: int := 1
  const LightTypeSpot: int := 2

  datatype LightKind = Directional | Point | Spot

  /** The code a light of each kind carries in its Type field. */
  function Code(k: LightKind): (c: int)
    ensures c == LightTypeDirectional <==> k == Directional
    ensures c == LightTypePoint <==> k == Point
    ensures c == LightTypeSpot <==> k == Spot
  {
    match k
    case Directional => LightTypeDirectional
    case Point => LightTypePoint
    case Spot => LightTypeSpot
  }

  /** The kind a Type code names, if any. */
  function KindOf(c: int): (k: Option<LightKind>)
    ensures k.Some? <==> c in {LightTypeDirectional, LightTypePoint, LightTypeSpot}
    ensures k.Some? ==> Code(k.value) == c
  {
    if c == LightTypeDirectional then Some(Directional)
    else if c == LightTypePoint then Some(Point)
    else if c == LightTypeSpot then Some(Spot)
    else None
  }

  /** Every kind's code reads back as that kind, so the three codes are pairwise distinct. */
  lemma CodesRoundTrip(k: LightKind)
    ensures KindOf(Code(k)) == Some(k)
  {
  }

  /** The struct itself, field for field. */
  datatype Light = Light(lightType: int, direction: Vec3, range: real, position: Vec3,
                         intensity: real, color: Vec3, spotInnerAngle: real, spotOuterAngle: real,
                         padding: Vec2)

  /** The scalar and vector types a field can have; each component is 4 bytes. */
  datatype FieldType = Int | Float | Float2 | Float3

  function SizeOf(t: FieldType): (n: nat)
    ensures n % 4 == 0 && 4 <= n <= 12
  {
    match t
    case Int => 4
    case Float => 4
    case Float2 => 8
    case Float3 => 12
  }

  datatype Field = Field(name: string, fieldType: FieldType)

  /** The fields of Light in declaration order. */
  const LightFields: seq<Field> := [
    Field("Type", Int), Field("Direction", Float3), Field("Range", Float),
    Field("Position", Float3), Field("Intensity", Float), Field("Color", Float3),
    Field("SpotInnerAngle", Float), Field("SpotOuterAngle", Float), Field("Padding", Float2)]

  /** A 16-byte constant-buffer register. */
  const RegisterSize: nat := 16

  /**
   * C++ layout: every field type is 4-byte aligned, so field `i` starts
   * where field `i - 1` ends; `Offset(fields, |fields|)` is the size.
   */
  function Offset(fields: seq<Field>, i: nat): nat
    requires i <= |fields|
    decreases i
  {
    if i == 0 then 0 else Offset(fields, i - 1) + SizeOf(fields[i - 1].fieldType)
  }

  /** A field of `size` bytes at `at` lies within one register. */
  predicate WithinRegister(at: nat, size: nat) {
    at % RegisterSize + size <= RegisterSize
  }

  /** HLSL packing of one field: it moves to the next register when it would straddle the current one. */
  function PackedStart(at: nat, size: nat): (s: nat)
    ensures s >= at
    ensures size <= RegisterSize ==> WithinRegister(s, size)
    ensures WithinRegister(at, size) <==> s == at
  {
    if WithinRegister(at, size) then at else NextRegister(at)
  }

  /** The start of the register after the one holding byte `at`. */
  function NextRegister(at: nat): (s: nat)
    ensures at < s && s % RegisterSize == 0 && s <= at + RegisterSize
  {
    (at / RegisterSize + 1) * RegisterSize
  }

  /** HLSL layout: field `i` starts at its packed position after the end of field `i - 1`. */
  function PackedOffset(fields: seq<Field>, i: nat): nat
    requires i < |fields|
    decreases i
  {
    var end := if i == 0 then 0 else PackedOffset(fields, i - 1) + SizeOf(fields[i - 1].fieldType);
    PackedStart(end, SizeOf(fields[i].fieldType))
  }

  /** No field of the C++ layout straddles a register. */
  predicate StraddlesNone(fields: seq<Field>) {
    forall i {:trigger WithinRegister(Offset(fields, i), SizeOf(fields[i].fieldType))} ::
      0 <= i < |fields| ==> WithinRegister(Offset(fields, i), SizeOf(fields[i].fieldType))
  }

  /**
   * When no field of the C++ layout straddles a register, HLSL packs every
   * field at the same offset, so both sides read the same bytes.
   */
  lemma {:induction false} PackingAgreesWhenNothingStraddles(fields: seq<Field>, i: nat)
    requires i < |fields| && StraddlesNone(fields)
    ensures PackedOffset(fields, i) == Offset(fields, i)
    decreases i
  {
    var size := SizeOf(fields[i].fieldType);
    assert WithinRegister(Offset(fields, i), size);
    if i == 0 {
      assert PackedOffset(fields, 0) == PackedStart(0, size);
    } else {
      PackingAgreesWhenNothingStraddles(fields, i - 1);
      assert PackedOffset(fields, i) == PackedStart(Offset(fields, i), size);
    }
  }

  /** Light occupies 64 bytes, four whole registers, with its fields at these offsets. */
  lemma LightOffsets()
    ensures Offset(LightFields, 0) == 0 && Offset(LightFields, 1) == 4 && Offset(LightFields, 2) == 16
    ensures Offset(LightFields, 3) == 20 && Offset(LightFields, 4) == 32 && Offset(LightFields, 5) == 36
    ensures Offset(LightFields, 6) == 48 && Offset(LightFields, 7) == 52 && Offset(LightFields, 8) == 56
    ensures Offset(LightFields, 9) == 64 && 64 % RegisterSize == 0
  {
    var fs := LightFields;
    assert Offset(fs, 1) == 4;
    assert Offset(fs, 2) == 16;
    assert Offset(fs, 3) == 20;
    assert Offset(fs, 4) == 32;
    assert Offset(fs, 5) == 36;
    assert Offset(fs, 6) == 48;
    assert Offset(fs, 7) == 52;
    assert Offset(fs, 8) == 56;
  }

  /**
   * No field of Light straddles a register (Direction, Position and Color
   * each sit inside one), so the HLSL layout matches the C++ one.
   */
  lemma LightMatchesHlsl()
    ensures StraddlesNone(LightFields)
    ensures forall i :: 0 <= i < |LightFields| ==> PackedOffset(LightFields, i) == Offset(LightFields, i)
  {
    var fs := LightFields;
    LightOffsets();
    forall i | 0 <= i < |fs|
      ensures WithinRegister(Offset(fs, i), SizeOf(fs[i].fieldType))
    {
    }
    forall i | 0 <= i < |fs|
      ensures PackedOffset(fs, i) == Offset(fs, i)
    {
      PackingAgreesWhenNothingStraddles(fs, i);
    }
  }

  /** Padding begins where the two spot angles end and runs to the end of their register. */
  lemma PaddingFillsLastRegister()
    ensures LightFields[8].name == "Padding"
    ensures Offset(LightFields, 8) == Offset(LightFields, 6) + SizeOf(LightFields[6].fieldType) + SizeOf(LightFields[7].fieldType)
    ensures Offset(LightFields, 6) / RegisterSize == Offset(LightFields, 8) / RegisterSize
    ensures Offset(LightFields, 9) == (Offset(LightFields, 6) / RegisterSize + 1) * RegisterSize
  {
    LightOffsets();
  }
}
