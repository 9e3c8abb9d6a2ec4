/**
 * An abstract view of the llvm::Module the backend writes into: named metadata
 * channels holding rows of strings, and a function table. Helper functions are
 * records with a short straight-line body, and a small interpreter gives that
 * body a meaning so that "the helper forwards to F" can be stated and proved.
 */
module IR {
  import opened Options

  /** The LLVM types that matter here: the void return type, opaque value types, pointers, structs. */
  datatype IRType = VoidTy | ValueTy(id: string) | PointerTy(pointee: IRType) | StructTy(elems: seq<IRType>)

  datatype Linkage = ExternalLinkage | InternalLinkage | OtherLinkage

  /** llvm::CallingConv::ID */
  type CallingConv = nat

  /** An SSA operand: a function argument, or the result of the instruction at that position. */
  datatype Operand = Arg(index: nat) | Reg(instr: nat)

  datatype Instr =
    | InBoundsGEP(base: Operand, idx0: nat, idx1: nat)
    | Load(ptr: Operand)
    | Call(callee: string, args: seq<Operand>, cc: CallingConv)
    | RetVoid
    | Ret(value: Operand)

  datatype Function = Function(
    name: string,
    params: seq<IRType>,
    ret: IRType,
    linkage: Linkage,
    noInline: bool,
    cc: CallingConv,
    body: seq<Instr>)

  /** One operand of a NamedMDNode: an MDNode whose operands are MDStrings. */
  type Row = seq<string>

  class Module {
    var channels: map<string, seq<Row>>
    var functions: map<string, Function>

    constructor (channels: map<string, seq<Row>>, functions: map<string, Function>)
      ensures this.channels == channels && this.functions == functions
    {
      this.channels := channels;
      this.functions := functions;
    }

    /** Module::getOrInsertNamedMetadata: an existing channel is kept as it is, a missing one starts empty. */
    method GetOrInsertNamedMetadata(name: string)
      modifies this`channels
      ensures name in channels
      ensures channels == if name in old(channels) then old(channels) else old(channels)[name := []]
    {
      if name !in channels {
        channels := channels[name := []];
      }
    }

    /** NamedMDNode::addOperand: appends one row at the end of the channel. */
    method AddOperand(name: string, row: Row)
      requires name in channels
      modifies this`channels
      ensures channels == old(channels)[name := old(channels)[name] + [row]]
    {
      channels := channels[name := channels[name] + [row]];
    }

    /** Module::getFunction */
    method GetFunction(name: string) returns (f: Option<Function>)
      ensures name in functions ==> f == Some(functions[name])
      ensures name !in functions ==> f == None
    {
      if name in functions {
        f := Some(functions[name]);
      } else {
        f := None;
      }
    }

    /**
     * Function::Create with the module as parent. LLVM renames a function whose
     * name is taken; that renaming is not modelled, so the name must be free.
     */
    method CreateFunction(f: Function)
      requires f.name !in functions
      modifies this`functions
      ensures functions == old(functions)[f.name := f]
    {
      functions := functions[f.name := f];
    }
  }

  /** getelementptr and load of fields 0..n-1 of the struct that argument 0 points to. */
  function FieldLoads(n: nat): seq<Instr> {
    seq(2 * n, k requires 0 <= k < 2 * n => if k % 2 == 0 then InBoundsGEP(Arg(0), 0, k / 2) else Load(Reg(k - 1)))
  }

  /** The values the loads produce, in field order. */
  function LoadedValues(n: nat): seq<Operand> {
    seq(n, i requires 0 <= i < n => Reg(2 * i + 1))
  }

  /** The helper body: unpack n fields, call the callee with them, return void or the call's value. */
  function ForwardingBody(n: nat, callee: string, cc: CallingConv, returnsVoid: bool): seq<Instr> {
    FieldLoads(n) + [Call(callee, LoadedValues(n), cc), if returnsVoid then RetVoid else Ret(Reg(2 * n))]
  }

  /** The shape of a forwarding body, instruction by instruction. */
  lemma ForwardingBodyShape(n: nat, callee: string, cc: CallingConv, returnsVoid: bool)
    ensures var b := ForwardingBody(n, callee, cc, returnsVoid);
      && |b| == 2 * n + 2
      && (forall i :: 0 <= i < n ==> b[2 * i] == InBoundsGEP(Arg(0), 0, i) && b[2 * i + 1] == Load(Reg(2 * i)))
      && b[2 * n] == Call(callee, seq(n, i requires 0 <= i < n => Reg(2 * i + 1)), cc)
      && b[2 * n + 1] == (if returnsVoid then RetVoid else Ret(Reg(2 * n)))
  {
    var b := ForwardingBody(n, callee, cc, returnsVoid);
    forall i | 0 <= i < n
      ensures b[2 * i] == InBoundsGEP(Arg(0), 0, i) && b[2 * i + 1] == Load(Reg(2 * i))
    {
      assert b[2 * i] == FieldLoads(n)[2 * i];
      assert b[2 * i + 1] == FieldLoads(n)[2 * i + 1];
    }
  }

  // ---------------------------------------------------------------------------
  // Meaning of a straight-line helper body, run on a packet of argument values.

  datatype RtValue = PacketPtr | FieldAddr(field: nat) | Word(w: int) | CallResult | NoValue

  datatype Invocation = Invocation(callee: string, args: seq<int>, cc: CallingConv)

  /** A body either ends by returning after one call (the call's value or void), or it goes wrong. */
  datatype Outcome = Forwarded(call: Invocation, returnsResult: bool) | Stuck

  function Eval(v: Operand, env: seq<RtValue>): RtValue {
    match v
    case Arg(i) => if i == 0 then PacketPtr else NoValue
    case Reg(j) => if j < |env| then env[j] else NoValue
  }

  function Words(args: seq<Operand>, env: seq<RtValue>): Option<seq<int>> {
    if |args| == 0 then Some([])
    else match Words(args[..|args| - 1], env)
      case None => None
      case Some(ws) =>
        match Eval(args[|args| - 1], env)
        case Word(w) => Some(ws + [w])
        case _ => None
  }

  /** Executes body[|env|..]; env holds the value of every instruction already executed. */
  function Run(body: seq<Instr>, packet: seq<int>, env: seq<RtValue>, call: Option<Invocation>): Outcome
    decreases |body| - |env|
  {
    if |env| >= |body| then Stuck
    else match body[|env|]
      case InBoundsGEP(base, idx0, idx1) =>
        if Eval(base, env) == PacketPtr && idx0 == 0 then Run(body, packet, env + [FieldAddr(idx1)], call) else Stuck
      case Load(ptr) =>
        (match Eval(ptr, env)
         case FieldAddr(i) => if i < |packet| then Run(body, packet, env + [Word(packet[i])], call) else Stuck
         case _ => Stuck)
      case Call(callee, args, cc) =>
        (match Words(args, env)
         case Some(ws) => if call.None? then Run(body, packet, env + [CallResult], Some(Invocation(callee, ws, cc))) else Stuck
         case None => Stuck)
      case RetVoid =>
        if call.Some? then Forwarded(call.value, false) else Stuck
      case Ret(v) =>
        if call.Some? && Eval(v, env) == CallResult then Forwarded(call.value, true) else Stuck
  }

  /** Calls the helper with argument 0 pointing at a struct whose fields hold `packet`. */
  function Exec(body: seq<Instr>, packet: seq<int>): Outcome {
    Run(body, packet, [], None)
  }

  /** The environment after the first k field loads. */
  function LoadedEnv(packet: seq<int>, k: nat): seq<RtValue>
    requires k <= |packet|
  {
    seq(2 * k, j requires 0 <= j < 2 * k => if j % 2 == 0 then FieldAddr(j / 2) else Word(packet[j / 2]))
  }

  lemma {:induction false} WordsOfLoaded(packet: seq<int>, m: nat)
    requires m <= |packet|
    ensures Words(LoadedValues(m), LoadedEnv(packet, |packet|)) == Some(packet[..m])
  {
    if m > 0 {
      assert LoadedValues(m)[..m - 1] == LoadedValues(m - 1);
      WordsOfLoaded(packet, m - 1);
      assert packet[..m] == packet[..m - 1] + [packet[m - 1]];
    }
  }

  /** Instructions 2k and 2k+1 of a forwarding body: the address and the load of field k. */
  lemma FieldLoadAt(n: nat, callee: string, cc: CallingConv, returnsVoid: bool, k: nat)
    requires k < n
    ensures var b := ForwardingBody(n, callee, cc, returnsVoid);
      |b| == 2 * n + 2 && b[2 * k] == InBoundsGEP(Arg(0), 0, k) && b[2 * k + 1] == Load(Reg(2 * k))
  {
    var b := ForwardingBody(n, callee, cc, returnsVoid);
    assert b[2 * k] == FieldLoads(n)[2 * k];
    assert b[2 * k + 1] == FieldLoads(n)[2 * k + 1];
  }

  /** Loading field k moves the environment from k loaded fields to k + 1. */
  lemma LoadStep(n: nat, callee: string, cc: CallingConv, returnsVoid: bool, packet: seq<int>, k: nat)
    requires |packet| == n && k < n
    ensures var body := ForwardingBody(n, callee, cc, returnsVoid);
      Run(body, packet, LoadedEnv(packet, k), None) == Run(body, packet, LoadedEnv(packet, k + 1), None)
  {
    var body := ForwardingBody(n, callee, cc, returnsVoid);
    FieldLoadAt(n, callee, cc, returnsVoid, k);
    var env := LoadedEnv(packet, k);
    var env1 := env + [FieldAddr(k)];
    var env2 := env1 + [Word(packet[k])];
    assert Run(body, packet, env, None) == Run(body, packet, env1, None);
    assert Eval(Reg(2 * k), env1) == FieldAddr(k);
    assert Run(body, packet, env1, None) == Run(body, packet, env2, None);
    assert env2 == LoadedEnv(packet, k + 1);
  }

  /** With every field loaded, the body calls the callee with the packet and returns. */
  lemma CallStep(n: nat, callee: string, cc: CallingConv, returnsVoid: bool, packet: seq<int>)
    requires |packet| == n
    ensures Run(ForwardingBody(n, callee, cc, returnsVoid), packet, LoadedEnv(packet, n), None)
         == Forwarded(Invocation(callee, packet, cc), !returnsVoid)
  {
    var body := ForwardingBody(n, callee, cc, returnsVoid);
    var env := LoadedEnv(packet, n);
    WordsOfLoaded(packet, n);
    assert packet[..n] == packet;
    assert |body| == 2 * n + 2;
    assert body[2 * n] == Call(callee, LoadedValues(n), cc);
    assert body[2 * n + 1] == if returnsVoid then RetVoid else Ret(Reg(2 * n));
    var inv := Invocation(callee, packet, cc);
    var env1 := env + [CallResult];
    assert Run(body, packet, env, None) == Run(body, packet, env1, Some(inv));
    assert Eval(Reg(2 * n), env1) == CallResult;
  }

  lemma {:induction false} RunFromLoad(n: nat, callee: string, cc: CallingConv, returnsVoid: bool, packet: seq<int>, k: nat)
    requires |packet| == n && k <= n
    ensures Run(ForwardingBody(n, callee, cc, returnsVoid), packet, LoadedEnv(packet, k), None)
         == Forwarded(Invocation(callee, packet, cc), !returnsVoid)
    decreases n - k
  {
    if k < n {
      LoadStep(n, callee, cc, returnsVoid, packet, k);
      RunFromLoad(n, callee, cc, returnsVoid, packet, k + 1);
    } else {
      CallStep(n, callee, cc, returnsVoid, packet);
    }
  }

  /**
   * Calling a forwarding body with a struct of exactly n values calls the
   * callee once, with those values in field order and the given calling
   * convention, and returns the call's result unless the callee returns void.
   */
  lemma ForwardingBodyForwards(n: nat, callee: string, cc: CallingConv, returnsVoid: bool, packet: seq<int>)
    requires |packet| == n
    ensures Exec(ForwardingBody(n, callee, cc, returnsVoid), packet)
         == Forwarded(Invocation(callee, packet, cc), !returnsVoid)
  {
    assert LoadedEnv(packet, 0) == [];
    RunFromLoad(n, callee, cc, returnsVoid, packet, 0);
  }
}
