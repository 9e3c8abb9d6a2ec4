/**
 * RSBackend: the RenderScript backend callbacks. It holds the export
 * collections of the compilation, the lazily created handles of the five
 * export metadata channels, and the diagnostics and stderr lines it has
 * produced. Each method is proved to produce exactly what the functions of
 * BackendSpec describe.
 */
module Backend {
  import opened Options
  import opened Decimal
  import opened ExportTypes
  import opened IR
  import opened BackendSpec

  /** slangAssert aborts the compiler; the model returns the failed assertion instead. */
  datatype Status = Completed | AssertionFailure(message: string)

  const FunctionDisappearedMessage: string := "Function marked as exported disappeared in Bitcode"
  const MetadataExistsMessage: string := "Metadata with same name was created before"

  /** A NamedMDNode handle is either null or the channel of that name, which then exists. */
  predicate HandleOk(h: Option<string>, name: string, keys: set<string>) {
    h.Some? ==> h.value == name && name in keys
  }

  /** The argument list of F's signature as the parameter struct; null when F takes no arguments. */
  method ParameterPacketType(f: Function) returns (ty: Option<IRType>)
    ensures |f.params| == 0 ==> ty == None
    ensures |f.params| > 0 ==> ty == Some(StructTy(f.params))
  {
    ty := None;
    if |f.params| != 0 {
      var tys: seq<IRType> := [];
      var j := 0;
      while j < |f.params|
        invariant 0 <= j <= |f.params|
        invariant tys == f.params[..j]
      {
        tys := tys + [f.params[j]];
        j := j + 1;
      }
      assert f.params[..j] == f.params;
      ty := Some(StructTy(tys));
    }
  }

  /**
   * The type string of an exported variable's row, and whether the variable
   * takes an object slot: only a primitive RS-object type does, never a
   * pointer. The string decodes to what the variable's class conveys.
   */
  method VarTypeString(ty: ExportType) returns (typeString: string, countsAsRSObject: bool)
    ensures typeString == VarTypeEncoding(ty)
    ensures (ty.Vector? || ty.ConstantArray? || ty.Record?) ==> ReadsAsName(ty.name) ==>
      DecodeVarTypeEncoding(typeString) == IntendedInfo(ty)
    ensures !(ty.Vector? || ty.ConstantArray? || ty.Record?) ==> DecodeVarTypeEncoding(typeString) == IntendedInfo(ty)
    ensures countsAsRSObject <==> ty.Primitive? && ty.isRSObject
  {
    countsAsRSObject := false;
    match ty {
      case Primitive(_, dataType, _, isRSObject) =>
        typeString := Utostr32(dataType);
        if isRSObject {
          countsAsRSObject := true;
        }
      case Pointer(_, pointee) =>
        typeString := "*" + pointee.name;
      case Matrix(_, dim) =>
        typeString := Utostr32(DataTypeRSMatrix2x2 + dim - 2);
      case Vector(name, _, _) =>
        typeString := name;
      case ConstantArray(name) =>
        typeString := name;
      case Record(name, _) =>
        typeString := name;
    }
    if !(ty.Vector? || ty.ConstantArray? || ty.Record?) || ReadsAsName(ty.name) {
      DecodeVarTypeEncodingRoundTrip(ty);
    }
  }

  /**
   * The helper body: a getelementptr and a load for each of the n parameters
   * counted by the descriptor, then the call, then the return.
   */
  method BuildHelperBody(n: nat, callee: string, cc: CallingConv, returnsVoid: bool) returns (body: seq<Instr>)
    ensures body == ForwardingBody(n, callee, cc, returnsVoid)
  {
    body := [];
    var params: seq<Operand> := [];
    var i := 0;
    while i < n
      invariant 0 <= i <= n
      invariant body == FieldLoads(i)
      invariant params == LoadedValues(i)
    {
      body := body + [InBoundsGEP(Arg(0), 0, i)];
      var ptr := Reg(|body| - 1);
      body := body + [Load(ptr)];
      params := params + [Reg(|body| - 1)];
      i := i + 1;
    }
    var ci := |body|;
    body := body + [Call(callee, params, cc)];
    if returnsVoid {
      body := body + [RetVoid];
    } else {
      body := body + [Ret(Reg(ci))];
    }
  }

  class RSBackend {
    const context: Context
    const allowRSPrefix: bool
    var exportVarMetadata: Option<string>
    var exportFuncMetadata: Option<string>
    var exportForEachMetadata: Option<string>
    var exportTypeMetadata: Option<string>
    var rsObjectSlotsMetadata: Option<string>
    /** What was reported through the DiagnosticsEngine, in order. */
    var diagnostics: seq<Diagnostic>
    /** What was printed on stderr, in order. */
    var stderr: seq<string>

    constructor (context: Context, allowRSPrefix: bool)
      ensures this.context == context && this.allowRSPrefix == allowRSPrefix
      ensures exportVarMetadata == None && exportFuncMetadata == None && exportForEachMetadata == None
      ensures exportTypeMetadata == None && rsObjectSlotsMetadata == None
      ensures diagnostics == [] && stderr == []
    {
      this.context := context;
      this.allowRSPrefix := allowRSPrefix;
      exportVarMetadata := None;
      exportFuncMetadata := None;
      exportForEachMetadata := None;
      exportTypeMetadata := None;
      rsObjectSlotsMetadata := None;
      diagnostics := [];
      stderr := [];
    }

    /** Every handle that is set names its own channel, and that channel is among keys. */
    ghost predicate HandlesIn(keys: set<string>)
      reads this`exportVarMetadata, this`exportFuncMetadata, this`exportForEachMetadata, this`exportTypeMetadata, this`rsObjectSlotsMetadata
    {
      && HandleOk(exportVarMetadata, ExportVarMN, keys)
      && HandleOk(exportFuncMetadata, ExportFuncMN, keys)
      && HandleOk(exportForEachMetadata, ExportForEachMN, keys)
      && HandleOk(exportTypeMetadata, ExportTypeMN, keys)
      && HandleOk(rsObjectSlotsMetadata, ObjectSlotsMN, keys)
    }

    /** Every handle that is set names its own channel, and that channel exists in m. */
    ghost predicate HandlesValid(m: Module)
      reads this`exportVarMetadata, this`exportFuncMetadata, this`exportForEachMetadata, this`exportTypeMetadata, this`rsObjectSlotsMetadata, m`channels
    {
      HandlesIn(m.channels.Keys)
    }

    /** The reserved-prefix check of HandleTopLevelDecl over one declaration group. */
    method HandleTopLevelDecl(decls: seq<Decl>)
      modifies this`diagnostics
      ensures diagnostics == old(diagnostics) + (if allowRSPrefix then [] else ReservedPrefixErrors(decls))
    {
      if !allowRSPrefix {
        var i := 0;
        while i < |decls|
          invariant 0 <= i <= |decls|
          invariant diagnostics == old(diagnostics) + ReservedPrefixErrors(decls[..i])
        {
          assert decls[..i + 1][..i] == decls[..i];
          var d := decls[i];
          if d.FunctionDecl? && HasRsPrefix(d.name) && !d.inRSHeader {
            diagnostics := diagnostics + [ReservedPrefixError(d.name)];
          }
          i := i + 1;
        }
        assert decls[..i] == decls;
      }
    }

    /**
     * HandleTranslationUnitPre. `astValid` is the verdict of ValidateASTContext;
     * when it fails the pre-pass returns before the version check. `dtor` is
     * what CreateStaticGlobalDtor returned, the static destructor if one was
     * needed; it goes through HandleTopLevelDecl like any other declaration.
     */
    method HandleTranslationUnitPre(astValid: bool, dtor: Option<Decl>)
      modifies this`diagnostics
      ensures diagnostics == old(diagnostics) +
        (if astValid then VersionDiagnostics(context.version) + (if dtor.Some? && !allowRSPrefix then ReservedPrefixErrors([dtor.value]) else []) else [])
    {
      if !astValid {
        return;
      }
      var version := context.version;
      if version == 0 {
        diagnostics := diagnostics + [Diagnostic(Error, MissingVersionMessage)];
      } else if version > 1 {
        diagnostics := diagnostics + [Diagnostic(Error, WrongVersionMessage)];
      }
      if dtor.Some? {
        HandleTopLevelDecl([dtor.value]);
      }
    }

    /**
     * Variable i of the export-variable block, whose running slotCount equals
     * i: its row, then the slot channel handle if not yet set, then its slot
     * row when it holds an RS object.
     */
    method EmitVarRow(m: Module, ghost c0: map<string, seq<Row>>, i: nat, slotCount: int)
      requires i < |context.vars| && slotCount == i
      requires HandlesValid(m) && exportVarMetadata == Some(ExportVarMN)
      requires m.channels == VarsAfter(c0, context.vars, i)
      modifies m`channels, this`rsObjectSlotsMetadata
      ensures m.channels == VarChannels(c0, context.vars[..i + 1])
      ensures rsObjectSlotsMetadata == Some(ObjectSlotsMN)
      ensures HandlesValid(m)
    {
      var ev := context.vars[i];
      VarStep(c0, context.vars, i);
      var typeString, countsAsRSObject := VarTypeString(ev.ty);
      m.AddOperand(ExportVarMN, [ev.name, typeString]);
      if rsObjectSlotsMetadata.None? {
        m.GetOrInsertNamedMetadata(ObjectSlotsMN);
        rsObjectSlotsMetadata := Some(ObjectSlotsMN);
      }
      if countsAsRSObject {
        m.AddOperand(ObjectSlotsMN, [Utostr32(slotCount)]);
      }
    }

    /** The export-variable block: one row per variable and the object slots, counted by slotCount. */
    method EmitExportVars(m: Module)
      requires HandlesValid(m) && |context.vars| > 0
      modifies m`channels, this`exportVarMetadata, this`rsObjectSlotsMetadata
      ensures m.channels == VarChannels(old(m.channels), context.vars)
      ensures exportVarMetadata == Some(ExportVarMN) && rsObjectSlotsMetadata == Some(ObjectSlotsMN)
      ensures HandlesValid(m)
    {
      ghost var c0 := m.channels;
      var slotCount := 0;
      if exportVarMetadata.None? {
        m.GetOrInsertNamedMetadata(ExportVarMN);
        exportVarMetadata := Some(ExportVarMN);
      }
      assert Get(c0, ExportVarMN) + [] == Get(c0, ExportVarMN);
      var i := 0;
      while i < |context.vars|
        invariant i <= |context.vars| && slotCount == i
        invariant exportVarMetadata == Some(ExportVarMN)
        invariant i > 0 ==> rsObjectSlotsMetadata == Some(ObjectSlotsMN)
        invariant m.channels == VarsAfter(c0, context.vars, i)
        invariant HandlesValid(m)
      {
        EmitVarRow(m, c0, i, slotCount);
        slotCount := slotCount + 1;
        i := i + 1;
      }
      assert context.vars[..i] == context.vars;
    }

    /**
     * The helper of one exported function with parameters: its parameter struct
     * comes from F's arguments; a failed packet check is only reported on
     * stderr, and the helper is created all the same.
     */
    method CreateHelper(m: Module, ef: ExportFunc, F: Function)
      requires HelperName(ef.name) !in m.functions
      modifies m`functions, this`stderr
      ensures m.functions == old(m.functions)[HelperName(ef.name) := MakeHelper(ef, F)]
      ensures stderr == old(stderr) + (if ef.packetTypeOk then [] else [MismatchMessage(ef.name)])
    {
      var helperName := HelperName(ef.name);
      var packetTy := ParameterPacketType(F);
      if !ef.packetTypeOk {
        stderr := stderr + [MismatchMessage(ef.name)];
      }
      var params: seq<IRType> := if packetTy.Some? then [PointerTy(packetTy.value)] else [];
      var body := BuildHelperBody(|ef.params|, ef.name, F.cc, F.ret == VoidTy);
      var helper := Function(helperName, params, F.ret, ExternalLinkage, true, F.cc, body);
      m.CreateFunction(helper);
    }

    /**
     * One exported function: its row in the export-function channel, and its
     * helper when it has parameters; false when its compiled function is
     * missing, before anything is written.
     */
    method EmitExportFunc(m: Module, ef: ExportFunc) returns (found: bool)
      requires ExportFuncMN in m.channels
      requires |ef.params| > 0 ==> HelperName(ef.name) !in m.functions
      modifies m`channels, m`functions, this`stderr
      ensures found <==> |ef.params| == 0 || ef.name in old(m.functions)
      ensures !found ==> m.channels == old(m.channels) && m.functions == old(m.functions) && stderr == old(stderr)
      ensures found ==>
        && m.channels == old(m.channels)[ExportFuncMN := old(m.channels)[ExportFuncMN] + [[ExportedSymbol(ef)]]]
        && m.functions == (if |ef.params| == 0 then old(m.functions)
                           else old(m.functions)[HelperName(ef.name) := MakeHelper(ef, old(m.functions)[ef.name])])
        && stderr == old(stderr) + (if |ef.params| > 0 && !ef.packetTypeOk then [MismatchMessage(ef.name)] else [])
    {
      var symbol: string;
      if |ef.params| == 0 {
        symbol := ef.name;
      } else {
        var f := m.GetFunction(ef.name);
        if f.None? {
          return false;
        }
        CreateHelper(m, ef, f.value);
        symbol := HelperName(ef.name);
      }
      m.AddOperand(ExportFuncMN, [symbol]);
      found := true;
    }

    /**
     * Step i of the export-function loop, from the state after the first i
     * functions: false when funcs[i] has parameters but no compiled body,
     * otherwise the state after the first i + 1.
     */
    method EmitFuncRow(m: Module, ghost c0: map<string, seq<Row>>, ghost fns0: map<string, Function>, ghost err0: seq<string>, i: nat)
        returns (found: bool)
      requires i < |context.funcs| && UniqueFuncNames(context.funcs) && !IsHelperName(context.funcs[i].name)
      requires forall k :: k in fns0 ==> !IsHelperName(k)
      requires m.channels == Append(c0, ExportFuncMN, FuncRows(context.funcs, i))
      requires m.functions == AddHelpers(fns0, context.funcs, i)
      requires stderr == err0 + MismatchReports(context.funcs, i)
      modifies m`channels, m`functions, this`stderr
      ensures found <==> |context.funcs[i].params| == 0 || context.funcs[i].name in fns0
      ensures found ==>
        && m.channels == Append(c0, ExportFuncMN, FuncRows(context.funcs, i + 1))
        && m.functions == AddHelpers(fns0, context.funcs, i + 1)
        && stderr == err0 + MismatchReports(context.funcs, i + 1)
      ensures m.channels.Keys == old(m.channels).Keys
    {
      FuncsStep(context.funcs, c0, fns0, err0, i);
      found := EmitExportFunc(m, context.funcs[i]);
    }

    /**
     * The loop of the export-function block, entered once the channel exists:
     * it stops at the first function with parameters that has no compiled
     * body, and otherwise goes through all of them.
     */
    method EmitFuncRows(m: Module, ghost c0: map<string, seq<Row>>) returns (status: Status)
      requires m.channels == Append(c0, ExportFuncMN, [])
      requires UniqueFuncNames(context.funcs)
      requires forall i :: 0 <= i < |context.funcs| ==> !IsHelperName(context.funcs[i].name)
      requires forall k :: k in m.functions ==> !IsHelperName(k)
      modifies m`channels, m`functions, this`stderr
      ensures status == Completed <==> Compiled(context.funcs, old(m.functions))
      ensures status != Completed ==> status == AssertionFailure(FunctionDisappearedMessage)
      ensures status == Completed ==>
        && m.channels == Append(c0, ExportFuncMN, FuncRows(context.funcs, |context.funcs|))
        && m.functions == AddHelpers(old(m.functions), context.funcs, |context.funcs|)
        && stderr == old(stderr) + MismatchReports(context.funcs, |context.funcs|)
      ensures m.channels.Keys == old(m.channels).Keys
    {
      ghost var fns0 := m.functions;
      ghost var err0 := stderr;
      var i := 0;
      while i < |context.funcs|
        invariant i <= |context.funcs|
        invariant CompiledUpTo(context.funcs, fns0, i)
        invariant m.channels == Append(c0, ExportFuncMN, FuncRows(context.funcs, i))
        invariant m.functions == AddHelpers(fns0, context.funcs, i)
        invariant stderr == err0 + MismatchReports(context.funcs, i)
        invariant m.channels.Keys == old(m.channels).Keys
      {
        var found := EmitFuncRow(m, c0, fns0, err0, i);
        if !found {
          FuncsMissing(context.funcs, fns0, i);
          return AssertionFailure(FunctionDisappearedMessage);
        }
        i := i + 1;
      }
      CompiledUpToExactly(context.funcs, fns0, i);
      status := Completed;
    }

    /** The export-function block: a row per function and a helper for each function with parameters. */
    method EmitExportFuncs(m: Module) returns (status: Status)
      requires HandlesValid(m) && |context.funcs| > 0
      requires UniqueFuncNames(context.funcs)
      requires forall i :: 0 <= i < |context.funcs| ==> !IsHelperName(context.funcs[i].name)
      requires forall k :: k in m.functions ==> !IsHelperName(k)
      modifies m`channels, m`functions, this`exportFuncMetadata, this`stderr
      ensures status == Completed <==> Compiled(context.funcs, old(m.functions))
      ensures status != Completed ==> status == AssertionFailure(FunctionDisappearedMessage)
      ensures status == Completed ==>
        && m.channels == FuncChannels(old(m.channels), context.funcs)
        && m.functions == AddHelpers(old(m.functions), context.funcs, |context.funcs|)
        && stderr == old(stderr) + MismatchReports(context.funcs, |context.funcs|)
      ensures exportFuncMetadata == Some(ExportFuncMN)
      ensures HandlesValid(m)
    {
      ghost var c0 := m.channels;
      if exportFuncMetadata.None? {
        m.GetOrInsertNamedMetadata(ExportFuncMN);
        exportFuncMetadata := Some(ExportFuncMN);
      }
      assert Get(c0, ExportFuncMN) + [] == Get(c0, ExportFuncMN);
      assert HandlesValid(m);
      status := EmitFuncRows(m, c0);
    }

    /** The for-each block: one row per kernel holding the decimal of its signature encoding. */
    method EmitExportForEach(m: Module)
      requires HandlesValid(m) && |context.forEachs| > 0
      modifies m`channels, this`exportForEachMetadata
      ensures m.channels == ForEachChannels(old(m.channels), context.forEachs)
      ensures exportForEachMetadata == Some(ExportForEachMN)
      ensures HandlesValid(m)
    {
      var forEachs := context.forEachs;
      ghost var c0 := m.channels;
      if exportForEachMetadata.None? {
        m.GetOrInsertNamedMetadata(ExportForEachMN);
        exportForEachMetadata := Some(ExportForEachMN);
      }
      AppendNothing(m.channels, ExportForEachMN);
      var i := 0;
      while i < |forEachs|
        invariant 0 <= i <= |forEachs|
        invariant exportForEachMetadata == Some(ExportForEachMN)
        invariant m.channels == Append(c0, ExportForEachMN, ForEachRows(forEachs[..i]))
        invariant HandlesValid(m)
      {
        assert ForEachRows(forEachs[..i + 1]) == ForEachRows(forEachs[..i]) + [[Utostr32(forEachs[i].encoding)]];
        m.AddOperand(ExportForEachMN, [Utostr32(forEachs[i].encoding)]);
        AppendRow(c0, ExportForEachMN, ForEachRows(forEachs[..i]), [Utostr32(forEachs[i].encoding)]);
        i := i + 1;
      }
      assert forEachs[..i] == forEachs;
    }

    /** The fields of a record, one row each, into its field channel. */
    method EmitFieldRows(m: Module, t: ExportType)
      requires t.Record? && FieldChannel(t.name) in m.channels
      modifies m`channels
      ensures m.channels == Append(old(m.channels), FieldChannel(t.name), FieldRows(t.fields))
    {
      ghost var c0 := m.channels;
      var structInfo := "%" + t.name;
      var fields := t.fields;
      AppendNothing(c0, structInfo);
      assert FieldRows(fields[..0]) == [];
      var j := 0;
      while j < |fields|
        invariant j <= |fields|
        invariant m.channels == Append(c0, structInfo, FieldRows(fields[..j]))
      {
        var f := fields[j];
        var fieldInfo := [f.name, f.ty.name, Itostr(FieldKindCode(f.ty))];
        assert FieldRows(fields[..j + 1]) == FieldRows(fields[..j]) + [fieldInfo];
        m.AddOperand(structInfo, fieldInfo);
        AppendRow(c0, structInfo, FieldRows(fields[..j]), fieldInfo);
        j := j + 1;
      }
      assert fields[..j] == fields;
    }

    /**
     * Type i of the type block, from the state after the first i types. Only a
     * record writes: its name row into the type channel, whose handle is set
     * on first use, then its fields into its own channel, which must not hold
     * rows yet.
     */
    method EmitTypeRow(m: Module, ghost c0: map<string, seq<Row>>, i: nat) returns (status: Status)
      requires i < |context.types| && UniqueTypeNames(context.types)
      requires HandlesValid(m)
      requires m.channels == TypeChannels(c0, context.types, i)
      modifies m`channels, this`exportTypeMetadata
      ensures status == Completed <==> !context.types[i].Record? || Get(c0, FieldChannel(context.types[i].name)) == []
      ensures status == Completed ==> m.channels == TypeChannels(c0, context.types, i + 1)
      ensures status != Completed ==> status == AssertionFailure(MetadataExistsMessage)
      ensures exportTypeMetadata == if context.types[i].Record? then Some(ExportTypeMN) else old(exportTypeMetadata)
      ensures HandlesValid(m)
    {
      var et := context.types[i];
      status := Completed;
      if !et.Record? {
        return;
      }
      TypeStep(c0, context.types, i);
      if exportTypeMetadata.None? {
        m.GetOrInsertNamedMetadata(ExportTypeMN);
        exportTypeMetadata := Some(ExportTypeMN);
      }
      m.AddOperand(ExportTypeMN, [et.name]);
      var structInfo := "%" + et.name;
      m.GetOrInsertNamedMetadata(structInfo);
      if |m.channels[structInfo]| != 0 {
        status := AssertionFailure(MetadataExistsMessage);
        return;
      }
      EmitFieldRows(m, et);
    }

    /**
     * The type block: it stops at the first record whose field channel
     * already holds rows, so it completes exactly when no record's does.
     */
    method EmitExportTypes(m: Module) returns (status: Status)
      requires HandlesValid(m) && UniqueTypeNames(context.types)
      modifies m`channels, this`exportTypeMetadata
      ensures status == Completed <==> FieldChannelsFresh(old(m.channels), context.types)
      ensures status == Completed ==> m.channels == TypeChannels(old(m.channels), context.types, |context.types|)
      ensures status != Completed ==> status == AssertionFailure(MetadataExistsMessage)
      ensures status == Completed ==>
        exportTypeMetadata == if HasRecord(context.types, |context.types|) then Some(ExportTypeMN) else old(exportTypeMetadata)
      ensures HandlesValid(m)
    {
      ghost var c0 := m.channels;
      var i := 0;
      while i < |context.types|
        invariant i <= |context.types|
        invariant m.channels == TypeChannels(c0, context.types, i)
        invariant forall j :: 0 <= j < i && context.types[j].Record? ==> Get(c0, FieldChannel(context.types[j].name)) == []
        invariant exportTypeMetadata == if HasRecord(context.types, i) then Some(ExportTypeMN) else old(exportTypeMetadata)
        invariant HandlesValid(m)
      {
        status := EmitTypeRow(m, c0, i);
        if status != Completed {
          return;
        }
        i := i + 1;
      }
      status := Completed;
    }

    /**
     * The blocks before the type block, for a unit that exports: they stop
     * only when a compiled function is missing.
     */
    method EmitBeforeTypes(m: Module) returns (status: Status)
      requires HandlesValid(m)
      requires UniqueFuncNames(context.funcs)
      requires forall i :: 0 <= i < |context.funcs| ==> !IsHelperName(context.funcs[i].name)
      requires forall k :: k in m.functions ==> !IsHelperName(k)
      modifies m`channels, m`functions, this`stderr
      modifies this`exportVarMetadata, this`exportFuncMetadata, this`exportForEachMetadata, this`rsObjectSlotsMetadata
      ensures status == Completed <==> Compiled(context.funcs, old(m.functions))
      ensures status != Completed ==> status == AssertionFailure(FunctionDisappearedMessage)
      ensures status == Completed ==>
        && m.channels == PreTypeChannels(old(m.channels), context)
        && m.functions == AddHelpers(old(m.functions), context.funcs, |context.funcs|)
        && stderr == old(stderr) + MismatchReports(context.funcs, |context.funcs|)
      ensures exportVarMetadata == if |context.vars| > 0 then Some(ExportVarMN) else old(exportVarMetadata)
      ensures rsObjectSlotsMetadata == if |context.vars| > 0 then Some(ObjectSlotsMN) else old(rsObjectSlotsMetadata)
      ensures exportFuncMetadata == if |context.funcs| > 0 then Some(ExportFuncMN) else old(exportFuncMetadata)
      ensures status == Completed ==>
        exportForEachMetadata == if |context.forEachs| > 0 then Some(ExportForEachMN) else old(exportForEachMetadata)
      ensures HandlesValid(m)
    {
      status := Completed;
      if |context.vars| > 0 {
        EmitExportVars(m);
      }
      if |context.funcs| > 0 {
        status := EmitExportFuncs(m);
        if status != Completed {
          return;
        }
      }
      if |context.forEachs| > 0 {
        EmitExportForEach(m);
      }
    }

    /**
     * HandleTranslationUnitPost: nothing unless the unit exports; otherwise the
     * variable, function, for-each and type blocks in that order, each only
     * when its collection is non-empty. It stops at the first failed
     * assertion, so a missing compiled function is reported before a field
     * channel that already holds rows.
     */
    method HandleTranslationUnitPost(m: Module) returns (status: Status)
      requires HandlesValid(m)
      requires UniqueFuncNames(context.funcs) && UniqueTypeNames(context.types)
      requires forall i :: 0 <= i < |context.funcs| ==> !IsHelperName(context.funcs[i].name)
      requires forall k :: k in m.functions ==> !IsHelperName(k)
      modifies m`channels, m`functions, this`stderr
      modifies this`exportVarMetadata, this`exportFuncMetadata, this`exportForEachMetadata
      modifies this`exportTypeMetadata, this`rsObjectSlotsMetadata
      ensures !context.processExport ==>
        && status == Completed
        && m.channels == old(m.channels) && m.functions == old(m.functions) && stderr == old(stderr)
        && exportVarMetadata == old(exportVarMetadata) && exportFuncMetadata == old(exportFuncMetadata)
        && exportForEachMetadata == old(exportForEachMetadata) && exportTypeMetadata == old(exportTypeMetadata)
        && rsObjectSlotsMetadata == old(rsObjectSlotsMetadata)
      ensures context.processExport ==>
        (status == Completed <==> Compiled(context.funcs, old(m.functions)) && FieldChannelsFresh(old(m.channels), context.types))
      ensures context.processExport && !Compiled(context.funcs, old(m.functions)) ==>
        status == AssertionFailure(FunctionDisappearedMessage)
      ensures context.processExport && Compiled(context.funcs, old(m.functions)) && !FieldChannelsFresh(old(m.channels), context.types) ==>
        status == AssertionFailure(MetadataExistsMessage)
      ensures context.processExport && status == Completed ==>
        && m.channels == PostChannels(old(m.channels), context)
        && m.functions == AddHelpers(old(m.functions), context.funcs, |context.funcs|)
        && stderr == old(stderr) + MismatchReports(context.funcs, |context.funcs|)
      ensures context.processExport && status == Completed ==>
        && exportVarMetadata == (if |context.vars| > 0 then Some(ExportVarMN) else old(exportVarMetadata))
        && rsObjectSlotsMetadata == (if |context.vars| > 0 then Some(ObjectSlotsMN) else old(rsObjectSlotsMetadata))
        && exportFuncMetadata == (if |context.funcs| > 0 then Some(ExportFuncMN) else old(exportFuncMetadata))
        && exportForEachMetadata == (if |context.forEachs| > 0 then Some(ExportForEachMN) else old(exportForEachMetadata))
        && exportTypeMetadata == (if HasRecord(context.types, |context.types|) then Some(ExportTypeMN) else old(exportTypeMetadata))
      ensures HandlesValid(m)
    {
      status := Completed;
      if !context.processExport {
        return;
      }
      ghost var c0 := m.channels;
      PreTypeFresh(c0, context);
      status := EmitBeforeTypes(m);
      if status != Completed {
        return;
      }
      if |context.types| > 0 {
        status := EmitExportTypes(m);
      }
    }
  }
}
