# RSBackend export emission, modelled in Dafny

This project models the RenderScript backend of the slang compiler
(`slang::RSBackend`). It covers three of its callbacks:

- **HandleTopLevelDecl** reports every user function whose name starts
  with the reserved prefix `rs`, unless it comes from an RS header file or
  the prefix is allowed.
- **HandleTranslationUnitPre** runs the format-version check. Version 0 is
  reported as a missing pragma, any version above 1 as a wrong one. It then
  passes the static destructor, if there is one, to HandleTopLevelDecl.
- **HandleTranslationUnitPost** is the export emission. It runs only for a
  unit that exports. It then writes, in this order:
  - the export-variable channel and the object-slot channel;
  - the export-function channel, with a `.helper_<name>` adapter built for
    each exported function that takes parameters;
  - the for-each channel;
  - the export-type channel and one `%<record>` field channel per record.

LLVM named metadata is modelled as a map from channel name to its rows
(`IR.Module.channels`). Each row is a sequence of strings. The module's
function table is `IR.Module.functions`. `RSBackend` is a class:

- its five nullable metadata handles are fields of type `Option<string>`,
  each set the first time its channel is needed;
- what it reports through the diagnostics engine is the field
  `diagnostics`;
- what it prints on stderr is the field `stderr`.

The per-compilation export collections of RSContext are the value
`Context`, in their iteration order.

`BackendSpec` states, as functions of the inputs, what each block writes:

- `VarChannels`, `FuncChannels`, `ForEachChannels`, `TypeChannels`,
  combined into `PostChannels`;
- `AddHelpers` for the function table;
- `MismatchReports` for stderr.

Each method of `Backend.RSBackend` is proved to produce exactly that. The
lemmas of `BackendSpec`, `ExportTypes`, `Decimal` and `IR` then prove what
those functions mean:

- each channel holds exactly its category's rows, in iteration order;
- object slots are the ascending positions of the RS-object variables;
- every row string reads back as what it encodes: a variable's type string
  when its vector, array or record type name is neither all digits nor
  starts with '*', and a slot row when there are at most 2^32 variables
  (see "## Left out");
- every helper is an adapter when the descriptor's parameter count equals
  the compiled function's argument count: given a packet of argument words,
  its body executes one call of the compiled function with those words, with
  the function's calling convention, and returns the call's result unless
  the function returns void;
- every channel or function the block does not write is left unchanged.

The two `slangAssert`s are modelled as a returned
`Status.AssertionFailure(message)`. One fires when an exported function
with parameters has no compiled body. The other fires when a record's field
channel already holds rows. `HandleTranslationUnitPost` completes exactly
when neither fires, and a missing function is reported first.

Files:

- `options.dfy`: `Option`;
- `decimal.dfy`: `llvm::utostr_32` and `llvm::itostr`, and the parsers
  that invert them;
- `export_types.dfy`: the export descriptors and their string encodings;
- `ir.dfy`: IR types, the helper instructions, a small interpreter for
  them, and the `Module` class;
- `backend_spec.dfy`: the specification functions and lemmas;
- `backend.dfy`: the `RSBackend` class.

`HandleTranslationUnitPre` only reports a version error and carries on; it
does not stop anything. It also says nothing for a negative version. The model follows the code:
`VersionDiagnostics` returns at most one error and never stops the pass.

## Model

| member | source | states |
|---|---|---|
| Backend.RSBackend.HandleTopLevelDecl | slang_rs_backend.cpp:77-96 | diagnostics gain exactly `ReservedPrefixErrors(decls)` when the prefix is not allowed, and nothing when it is |
| BackendSpec.ReservedPrefixErrorsExactly | slang_rs_backend.cpp:79-95 | every function declared outside an RS header whose name starts with "rs" is reported; every report is an Error that names such a function; there are at most as many reports as declarations |
| Backend.RSBackend.HandleTranslationUnitPre | slang_rs_backend.cpp:150-174 | no report when ValidateASTContext fails; otherwise diagnostics gain exactly `VersionDiagnostics(version)`, then the reserved-prefix report of the static destructor, if there is one and the prefix is not allowed |
| BackendSpec.VersionDiagnosticsCases | slang_rs_backend.cpp:157-167 | among non-negative versions, only 1 gets no report; a negative version gets none; there is at most one report, it is an Error, and it is the missing-pragma message for 0 and the must-be-1 message otherwise |
| Backend.VarTypeString | slang_rs_backend.cpp:213-256 | the type string is `VarTypeEncoding(ty)` and decodes to what the type's class conveys (for vectors, arrays and records: when the name is neither all digits nor starts with '*'); countsAsRSObject holds exactly for a primitive RS-object type, never for a pointer |
| ExportTypes.DecodeVarTypeEncodingRoundTrip | slang_rs_backend.cpp:221-256 | decoding a variable's type string recovers what its class conveys: the 32-bit type code for primitives and matrices (DataTypeRSMatrix2x2 + dim - 2), the pointee name after '*' for pointers, and the type name for vectors, arrays and records, whose names are any string that is neither all digits nor starts with '*' |
| BackendSpec.VarRowsReadBack | slang_rs_backend.cpp:208-260 | one two-string row per variable, in order: its name, then a type string that decodes to what its class conveys, for every variable whose vector, array or record type name is neither all digits nor starts with '*' |
| Backend.RSBackend.EmitVarRow | slang_rs_backend.cpp:212-272 | from the state after i variables, with slotCount = i, one step leaves the channels after i + 1 variables; the slot handle is set afterwards |
| BackendSpec.VarStep | slang_rs_backend.cpp:258-272 | adding the variable row, getting or inserting the slot channel, and adding the slot row only for an RS object turns the channels after i variables into those after i + 1 |
| Backend.RSBackend.EmitExportVars | slang_rs_backend.cpp:198-274 | the channels become `VarChannels(old channels, vars)`: the variable channel gains each row and the slot channel gains the slot rows; both handles are set, to their own channels |
| ExportTypes.ObjectSlotsExactly | slang_rs_backend.cpp:262-272 | a position is an object slot exactly when the variable there counts as an RS object; slots are strictly ascending and below the variable count; the counter advances once per variable of any type |
| BackendSpec.ObjectSlotRowsExactly | slang_rs_backend.cpp:262-272 | with at most 2^32 variables, the slot channel holds one single-string row per RS-object variable, and that string reads back as the variable's 0-based position, in ascending order |
| BackendSpec.ObjectSlotsLength | slang_rs_backend.cpp:267-270 | there are never more object slots than variables |
| Decimal.ParseUtostr32 | slang_rs_backend.cpp:227 | the decimal written by utostr_32 reads back as its argument modulo 2^32, and as the argument itself when it fits in 32 bits |
| Decimal.ParseItostr | slang_rs_backend.cpp:483-500 | the signed decimal written by itostr reads back as its argument |
| Decimal.NatToDecimalDigits | slang_rs_backend.cpp:269 | a decimal numeral is a non-empty digit string, and it starts with '0' only when it is "0" |
| Decimal.DigitsValueOfDecimal | slang_rs_backend.cpp:269 | the digits of a numeral evaluate back to the number |
| Decimal.ParseNatOfDecimal | slang_rs_backend.cpp:269 | parsing a numeral returns the number |
| Decimal.NatToDecimalInjective | slang_rs_backend.cpp:268-269 | distinct numbers have distinct numerals, so distinct slots have distinct rows |
| Decimal.DigitChar | slang_rs_backend.cpp:269 | the digit character of d is a digit whose offset from '0' is d |
| BackendSpec.HelperNameInjective | slang_rs_backend.cpp:298 | every ".helper_" name counts as a helper name, and distinct functions get distinct helper names |
| Backend.ParameterPacketType | slang_rs_backend.cpp:304-314 | no struct when the compiled function has no arguments; otherwise the struct of its argument types, in order |
| Backend.RSBackend.CreateHelper | slang_rs_backend.cpp:302-393 | adds exactly the helper `MakeHelper(ef, F)` under ".helper_" + name; prints the mismatch line on stderr exactly when the packet check fails, and creates the helper anyway |
| Backend.BuildHelperBody | slang_rs_backend.cpp:354-390 | the body built is `ForwardingBody`: a GEP and a load per descriptor parameter, the call, then a void return or a return of the call's value |
| IR.ForwardingBodyShape | slang_rs_backend.cpp:368-389 | the body has 2n + 2 instructions: for each field k, an in-bounds GEP to field k of argument 0 followed by a load of it; then a call to the callee with the n loaded values and its calling convention; then the return |
| BackendSpec.HelperIsAdapter | slang_rs_backend.cpp:332-389 | the helper has the helper name, F's return type and calling convention, external linkage and noinline, and a single pointer-to-struct parameter of F's argument types; when the counts agree, running it on a packet calls F once with the packet's words in order and returns F's result unless F is void |
| IR.ForwardingBodyForwards | slang_rs_backend.cpp:366-389 | executing the body on a packet of n words makes exactly one call, to the callee with those words in order and its calling convention, and returns the result unless the callee is void |
| IR.RunFromLoad | slang_rs_backend.cpp:368-389 | from any point in the loads, what is left of the body still makes that one call with the whole packet |
| IR.LoadStep | slang_rs_backend.cpp:370-378 | one GEP-and-load pair puts field k of the packet into the environment and changes nothing else about the run |
| IR.CallStep | slang_rs_backend.cpp:381-389 | once all fields are loaded, the call receives them in order and the return forwards its value, or nothing for void |
| IR.FieldLoadAt | slang_rs_backend.cpp:368-378 | instructions 2k and 2k + 1 of the body are the GEP to field k and the load through it |
| IR.WordsOfLoaded | slang_rs_backend.cpp:378-382 | the first m loaded values, passed as call arguments, are the first m packet words |
| Backend.RSBackend.EmitExportFunc | slang_rs_backend.cpp:289-401 | reports not found exactly when the function has parameters but no compiled body, and then changes nothing; otherwise it adds one row naming the function (no parameters) or its helper, adds the helper, and adds the mismatch line on stderr when the packet check fails |
| BackendSpec.FuncsStep | slang_rs_backend.cpp:289-401 | at step i, the name is looked up as in the original table, the helper name is still free, and the row, the helper and the report turn the state after i functions into the state after i + 1 |
| Backend.RSBackend.EmitFuncRow | slang_rs_backend.cpp:289-401 | from the state after i functions, the state after i + 1; not found exactly when function i has parameters but no compiled body |
| Backend.RSBackend.EmitFuncRows | slang_rs_backend.cpp:284-402 | completes exactly when every exported function with parameters has a compiled body, and otherwise fails the "disappeared" assertion; on completion the channel holds `FuncRows`, the table is `AddHelpers` and stderr gains `MismatchReports` |
| Backend.RSBackend.EmitExportFuncs | slang_rs_backend.cpp:277-403 | the function block: it sets the handle to the function channel first, with the same outcome as EmitFuncRows and the channels equal to `FuncChannels(old channels, funcs)` |
| BackendSpec.CompiledUpToExactly | slang_rs_backend.cpp:292-300 | the prefix check passed by the loop is the same as "every function with parameters among the first n has a compiled body" |
| BackendSpec.FuncsMissing | slang_rs_backend.cpp:296-300 | a function with parameters and no compiled body makes the input not compiled |
| BackendSpec.FuncRowsExactly | slang_rs_backend.cpp:292-400 | one single-string row per function, in iteration order: the function's own name when it has no parameters, else ".helper_" + name |
| BackendSpec.AddHelpersKeys | slang_rs_backend.cpp:344-348 | the table gains exactly the helper names of the functions with parameters, and no non-helper function changes |
| BackendSpec.HelperCreated | slang_rs_backend.cpp:302-393 | every exported function with parameters and a compiled body has its helper in the final table, built from that compiled function |
| BackendSpec.AddHelpersLookup | slang_rs_backend.cpp:296 | a non-helper name is in the table after the helpers exactly when it was before, with the same function |
| BackendSpec.HelperNameFree | slang_rs_backend.cpp:344-348 | the helper about to be created does not clash with the original table or with the helpers created so far |
| BackendSpec.MismatchReportsExactly | slang_rs_backend.cpp:316-320 | a mismatch line is printed for each function with parameters whose packet check fails, and every line printed names such a function |
| Backend.RSBackend.EmitExportForEach | slang_rs_backend.cpp:406-428 | the channels become `ForEachChannels(old channels, forEachs)`, with one row per kernel in order; the handle is set to the for-each channel |
| BackendSpec.ForEachRowsReadBack | slang_rs_backend.cpp:420-425 | one single-string row per kernel, which reads back as its encoding modulo 2^32 |
| ExportTypes.FieldRowReadsBack | slang_rs_backend.cpp:471-501 | a field row has three strings: the field name, the type name, and a kind that reads back as the primitive kind for primitive and vector fields and as DataKindUser otherwise |
| Backend.RSBackend.EmitFieldRows | slang_rs_backend.cpp:467-506 | the record's field channel gains one row per field, in declaration order, and nothing else changes |
| Backend.RSBackend.EmitTypeRow | slang_rs_backend.cpp:440-507 | a non-record writes nothing; a record fails the assertion exactly when its field channel already held rows before the block; otherwise the state after type i + 1; the type handle is set exactly when the type is a record |
| BackendSpec.TypeStep | slang_rs_backend.cpp:451-504 | for a record, its field channel still holds its rows from before the block; getting or inserting the type channel, adding the name row, getting or inserting the field channel and appending the fields give the state after i + 1 types |
| Backend.RSBackend.EmitExportTypes | slang_rs_backend.cpp:431-509 | completes exactly when no record's field channel held rows before the block, and otherwise fails the "created before" assertion; on completion the channels are `TypeChannels(old channels, types)`, and the type handle is set when some type is a record and is unchanged otherwise |
| BackendSpec.TypeChannelRows | slang_rs_backend.cpp:444-456 | the type channel gains one name row per record, in iteration order, and exists afterwards exactly when it did before or some type is a record |
| BackendSpec.HasRecordExactly | slang_rs_backend.cpp:447 | "some of the first n types is a record" is the existential it abbreviates |
| BackendSpec.FieldChannelRows | slang_rs_backend.cpp:458-504 | with unique type names, each record's field channel exists, even for a record with no fields, and gains exactly that record's field rows |
| BackendSpec.FreshFieldChannel | slang_rs_backend.cpp:465-504 | when the assertion holds, each record's field channel holds exactly its field rows |
| BackendSpec.FieldChannelInjective | slang_rs_backend.cpp:459-460 | distinct records get distinct field channels |
| BackendSpec.FieldChannelNotFixed | slang_rs_backend.cpp:459-460 | a field channel, which starts with '%', is never one of the five fixed channels |
| BackendSpec.TypeChannelsFrame | slang_rs_backend.cpp:434-505 | a channel other than the type channel and the records' field channels is left unchanged by the type block |
| BackendSpec.TypeChannelsFrameAll | slang_rs_backend.cpp:434-505 | the same for every channel outside the fixed type channel and the set of field channels |
| BackendSpec.TypeChannelsFixedFrame | slang_rs_backend.cpp:434-505 | the type block leaves every fixed channel other than the type channel unchanged |
| BackendSpec.RecordStepFrame | slang_rs_backend.cpp:447-504 | one record touches only the type channel and its own field channel |
| BackendSpec.PreTypeFresh | slang_rs_backend.cpp:197-428 | the variable, function and for-each blocks never touch a field channel, so the type block's assertion can be judged on the channels before emission |
| BackendSpec.PreTypeFixedChannels | slang_rs_backend.cpp:197-428 | before the type block, each of the other fixed channels exists exactly when its category is non-empty or it existed already, and holds exactly its category's rows after any old ones |
| Backend.RSBackend.EmitBeforeTypes | slang_rs_backend.cpp:197-428 | the first three blocks, each only when its collection is non-empty; completes exactly when the functions are compiled, and then leaves `PreTypeChannels`, `AddHelpers` and `MismatchReports`; each block's handles are set when it runs and unchanged otherwise |
| Backend.RSBackend.HandleTranslationUnitPost | slang_rs_backend.cpp:192-512 | a unit that does not export changes nothing. Otherwise it completes exactly when every function is compiled and no record's field channel held rows; a missing function fails first; on completion the channels are `PostChannels`, the table `AddHelpers` and stderr gains `MismatchReports`; each handle is set to its channel when its category writes, and is unchanged otherwise |
| BackendSpec.PostFixedChannels | slang_rs_backend.cpp:192-510 | after emission each fixed channel exists exactly when it existed or its category has something to write (for types: a record), and holds its old rows followed by exactly its category's rows, in order |
| BackendSpec.PostOtherChannels | slang_rs_backend.cpp:458-504 | after emission each record's field channel exists, even for a record with no fields, and holds its old rows plus its field rows; every other non-fixed channel is unchanged |
| Backend.RSBackend.constructor | slang_rs_backend.cpp:45-64 | the backend keeps its RSContext and the allow-prefix flag, starts with all five metadata handles null, and has reported and printed nothing |
| BackendSpec.CheckedHelperForwards | slang_rs_backend.cpp:316-389 | assuming that a passed packet check means the descriptor and the compiled function have as many parameters, a helper whose check passed forwards a packet of that many words to the compiled function once, in order, and returns its result unless it is void |
| IR.Module.GetOrInsertNamedMetadata | slang_rs_backend.cpp:200-201 | an existing channel is kept as it is; a missing one is created empty |
| IR.Module.AddOperand | slang_rs_backend.cpp:258-259 | appends exactly one row at the end of the channel |
| IR.Module.GetFunction | slang_rs_backend.cpp:296 | the compiled function of that name if there is one, else null |
| IR.Module.CreateFunction | slang_rs_backend.cpp:344-348 | adds the new function under its name and leaves the rest of the table unchanged |

## Left out

- AnnotateFunction, the reference-count pass (`mRefCount`) and
  CreateStaticGlobalDtor: they rewrite clang ASTs, which are not modelled.
  The second loop of HandleTopLevelDecl and the static-function loop at the
  end of HandleTranslationUnitPre only hand declarations to AnnotateFunction.
- Backend.RSBackend.HandleTranslationUnitPre: the static destructor that
  CreateStaticGlobalDtor returns is the parameter `dtor`. It goes through
  HandleTopLevelDecl, so its name is checked for the reserved prefix like any
  other declaration. How the reference-count pass builds and names it is not
  modelled, nor is its code generation.
- The forwarding to `Backend::HandleTopLevelDecl`: it is ordinary code
  generation, outside this component.
- IR.Module.constructor: it only builds the llvm::Module that the pass
  receives as its argument, with the given channels and functions; no source
  line creates it.
- BackendSpec.ObjectSlotRowsExactly: the slot counter is an int that
  utostr_32 takes as a 32-bit unsigned value, so a slot row reads back as
  the position only while positions stay below 2^32 (at most 2^32
  variables); beyond that it wraps, as ParseUtostr32 states.
- ValidateASTContext and ValidateVarDecl: their verdict is the parameter
  `astValid` of HandleTranslationUnitPre.
- RSContext::processExport (slang_rs_backend.cpp:193) is a call into
  RSContext, not a stored flag. It runs the export processing, which fills
  the four export collections and returns whether it succeeded. That
  processing is not modelled: its verdict is `Context.processExport` and its
  output is `Context.vars`, `Context.funcs`, `Context.forEachs` and
  `Context.types`.
- RSExportFunc::checkParameterPacketType is a type comparison inside the
  export-type module. It is the descriptor flag `packetTypeOk`.
- The "Expected:" and "Got:" LLVM type dumps after a mismatch report: they
  print type text whose format belongs to LLVM. Only the first stderr line
  is modelled.
- Source locations of diagnostics: `Diagnostic` holds a severity and a
  message only.
- The numeric values of DataTypeRSMatrix2x2 and DataKindUser: they are
  defined in slang_rs_export_type.h, which is not part of this model. They
  are left unspecified, and every property holds whatever they are.
- The channel names: RS_EXPORT_VAR_MN and the other four are defined in
  slang_rs_metadata.h, which is not part of this model. The model assumes
  the values "#rs_export_var", "#rs_export_func", "#rs_export_foreach",
  "#rs_export_type" and "#rs_object_slots". The frame lemmas
  (FieldChannelNotFixed and, through it, PreTypeFresh, TypeChannelRows,
  TypeChannelsFixedFrame and PostOtherChannels) rely on these '#' names
  never being equal to a "%" + name field channel.
- Backend.RSBackend.HandleTranslationUnitPost: requires unique names in two
  categories only.
  - Exported functions: they are C functions of one translation unit, and
    C allows only one function of a given name there. The block also finds
    each one's compiled body by name alone (slang_rs_backend.cpp:296).
  - Exported types: they are the values of a StringMap keyed by type name
    (`I->getValue()` at slang_rs_backend.cpp:440).
  - Variables and for-each kernels need no uniqueness.
- ExportTypes.DecodeVarTypeEncodingRoundTrip and BackendSpec.VarRowsReadBack:
  a vector, array or record is written by its type name unchanged. A name
  that is all digits or starts with '*' would therefore decode as a type
  code or a pointer. The round trip is stated for every other name, which
  includes C type names and names in angle brackets.
- Backend.RSBackend.HandleTranslationUnitPost: requires that no exported
  function name is a ".helper_" name and that no function in the module
  has one. C identifiers cannot contain '.'. LLVM would rename a colliding
  helper, and that renaming is not modelled.
- An aborted run ends at the failed assertion. The model returns the
  failure as the status and says nothing about the state the process was
  in when it stopped.
- The iteration order of the export collections is stated as given; the
  StringMap hashing behind the type order is not modelled.
- IR semantics are reduced to what the helper body needs: words in a packet
  struct, GEP, load, call and return. Types of the loaded values and the
  data layout are not modelled.
- Backend.BuildHelperBody: the helper loads as many fields as the
  descriptor has parameters, whatever the compiled function's argument
  count. The packet check at slang_rs_backend.cpp:316 compares the struct
  built from the compiled function's arguments with the descriptor's
  expected packet, but a failure is only printed and the helper is built
  anyway. In the model the check's verdict is the flag `packetTypeOk`, which
  is not tied to the two counts. So HelperIsAdapter proves forwarding when
  the counts agree, and CheckedHelperForwards proves it for a passed check
  under the assumption that a passed check means the counts agree.
