/**
 * The export descriptors that semantic analysis hands to the backend
 * (RSExportVar, RSExportFunc, RSExportForEach, RSExportType and its
 * subclasses), and the per-descriptor string encodings that the backend
 * writes into export metadata.
 */
module ExportTypes {
  import opened Options
  import opened Decimal

  /**
   * RSExportPrimitiveType::DataTypeRSMatrix2x2 and RSExportPrimitiveType::DataKindUser.
   * Their values live in slang_rs_export_type.h, which is not part of this model;
   * they are left unspecified and every property below holds whatever they are.
   */
  const DataTypeRSMatrix2x2: int
  const DataKindUser: int

  /**
   * RSExportType, one variant per ExportClass. Vector types derive from
   * primitive types in slang, so they carry a data type and a kind as well.
   */
  datatype ExportType =
    | Primitive(name: string, dataType: int, kind: int, isRSObject: bool)
    | Pointer(name: string, pointee: ExportType)
    | Matrix(name: string, dim: nat)
    | Vector(name: string, dataType: int, kind: int)
    | ConstantArray(name: string)
    | Record(name: string, fields: seq<Field>)

  /** RSExportRecordType::Field: a named member of a record, in declaration order. */
  datatype Field = Field(name: string, ty: ExportType)

  datatype ExportVar = ExportVar(name: string, ty: ExportType)

  /**
   * RSExportFunc. `params` are the exported parameter types (getNumParameters()
   * is their count); `packetTypeOk` is the answer checkParameterPacketType
   * gives for the parameter struct built from the compiled function.
   */
  datatype ExportFunc = ExportFunc(name: string, params: seq<ExportType>, packetTypeOk: bool)

  /** RSExportForEach: only its precomputed signature encoding matters here. */
  datatype ExportForEach = ExportForEach(name: string, encoding: int)

  /** The second string of an export-variable row: how the host learns the variable's type. */
  function VarTypeEncoding(t: ExportType): string {
    match t
    case Primitive(_, dataType, _, _) => Utostr32(dataType)
    case Pointer(_, pointee) => "*" + pointee.name
    case Matrix(_, dim) => Utostr32(DataTypeRSMatrix2x2 + dim - 2)
    case Vector(name, _, _) => name
    case ConstantArray(name) => name
    case Record(name, _) => name
  }

  /** A variable whose type is a reference-counted RS object gets an object slot; pointers never do. */
  predicate CountsAsRSObject(t: ExportType) {
    t.Primitive? && t.isRSObject
  }

  /** The third string of a record field row: the primitive kind, or the user-defined sentinel. */
  function FieldKindCode(t: ExportType): int {
    match t
    case Primitive(_, _, kind, _) => kind
    case Vector(_, _, kind) => kind
    case _ => DataKindUser
  }

  function FieldRow(f: Field): seq<string> {
    [f.name, f.ty.name, Itostr(FieldKindCode(f.ty))]
  }

  /**
   * A field row names the field, names its type, and its third string reads
   * back as the primitive kind for primitive and vector fields and as
   * DataKindUser for every other field.
   */
  lemma FieldRowReadsBack(f: Field)
    ensures |FieldRow(f)| == 3 && FieldRow(f)[0] == f.name && FieldRow(f)[1] == f.ty.name
    ensures (f.ty.Primitive? || f.ty.Vector?) ==> ParseInt(FieldRow(f)[2]) == Some(f.ty.kind)
    ensures !(f.ty.Primitive? || f.ty.Vector?) ==> ParseInt(FieldRow(f)[2]) == Some(DataKindUser)
  {
    ParseItostr(FieldKindCode(f.ty));
  }

  /** What host tooling recovers from a variable's type encoding. */
  datatype VarTypeInfo = TypeCode(code: nat) | PointerTo(pointee: string) | Named(name: string)

  function DecodeVarTypeEncoding(s: string): VarTypeInfo {
    if |s| > 0 && s[0] == '*' then PointerTo(s[1..])
    else match ParseNat(s)
      case Some(c) => TypeCode(c)
      case None => Named(s)
  }

  /** The information each export class is meant to convey to the host. */
  function IntendedInfo(t: ExportType): VarTypeInfo {
    match t
    case Primitive(_, dataType, _, _) => TypeCode(dataType % Two32)
    case Pointer(_, pointee) => PointerTo(pointee.name)
    case Matrix(_, dim) => TypeCode((DataTypeRSMatrix2x2 + dim - 2) % Two32)
    case Vector(name, _, _) => Named(name)
    case ConstantArray(name) => Named(name)
    case Record(name, _) => Named(name)
  }

  /**
   * A type string that the decoder takes for a type name: it neither starts
   * with '*' nor is all digits. C type names such as "float4" are of this
   * kind, and so are placeholder names in angle brackets.
   */
  predicate ReadsAsName(s: string) {
    !(|s| > 0 && s[0] == '*') && ParseNat(s).None?
  }

  /**
   * The three kinds of variable encoding never collide: a code is all digits,
   * a pointer starts with '*', and a vector, array or record writes its type
   * name, which is neither; decoding therefore recovers, for every export
   * class, what it encodes.
   */
  lemma DecodeVarTypeEncodingRoundTrip(t: ExportType)
    requires (t.Vector? || t.ConstantArray? || t.Record?) ==> ReadsAsName(t.name)
    ensures DecodeVarTypeEncoding(VarTypeEncoding(t)) == IntendedInfo(t)
  {
    match t
    case Primitive(_, dataType, _, _) =>
      ParseUtostr32(dataType);
    case Pointer(_, pointee) =>
      assert ("*" + pointee.name)[1..] == pointee.name;
    case Matrix(_, dim) =>
      ParseUtostr32(DataTypeRSMatrix2x2 + dim - 2);
    case _ =>
  }

  /**
   * The 0-based positions, ascending, of the variables that receive an object
   * slot: the slot counter advances once per variable, whatever its type.
   */
  function ObjectSlots(vars: seq<ExportVar>): seq<nat> {
    if |vars| == 0 then []
    else ObjectSlots(vars[..|vars| - 1]) + (if CountsAsRSObject(vars[|vars| - 1].ty) then [|vars| - 1] else [])
  }

  /** The object slots are exactly the positions of RS-object variables, in strictly ascending order. */
  lemma {:induction false} ObjectSlotsExactly(vars: seq<ExportVar>)
    ensures forall j: nat :: j in ObjectSlots(vars) <==> j < |vars| && CountsAsRSObject(vars[j].ty)
    ensures forall a, b :: 0 <= a < b < |ObjectSlots(vars)| ==> ObjectSlots(vars)[a] < ObjectSlots(vars)[b]
    ensures forall a :: 0 <= a < |ObjectSlots(vars)| ==> ObjectSlots(vars)[a] < |vars|
  {
    if |vars| > 0 {
      var init := vars[..|vars| - 1];
      ObjectSlotsExactly(init);
      forall j: nat | j < |init| ensures init[j] == vars[j] { }
    }
  }
}
