/** The lowering pass of src/llvm_lowering_pass.rs, driving an abstract code
    generation target instead of LLVM. The target is a module that records the
    functions declared on it (name, signature, linkage) and the basic blocks
    opened in them; target types and values are plain data. */
module Lowering {
  import opened Wrappers
  import opened Diagnostics
  import opened Nodes

  /** The shapes of `inkwell::types::AnyTypeEnum`. */
  datatype TargetType =
    | IntType(width: nat)
    | FloatType
    | VoidType
    | PointerType
    | StructType
    | ArrayType
    | VectorType
    | FunctionType(signature: FunctionSignature)

  /** `inkwell::types::FunctionType`: return type, parameter types, variadic flag. */
  datatype FunctionSignature = FunctionSignature(returnType: TargetType, parameterTypes: seq<TargetType>, isVariadic: bool)

  /** A constant integer of the given bit width. */
  datatype TargetValue = IntValue(width: nat, bits: nat)

  datatype Linkage = ExternalLinkage | PrivateLinkage

  datatype FunctionDecl = FunctionDecl(name: string, signature: FunctionSignature, linkage: Linkage)

  /** The declarations made on the target, in order, and the opened basic
      blocks, each recorded as the index of the function it belongs to. A
      function handle is an index into `functions`, a block handle an index
      into `blocks`. */
  datatype TargetModule = TargetModule(name: string, functions: seq<FunctionDecl>, blocks: seq<nat>)
  {
    ghost predicate WellFormed()
    {
      forall b :: 0 <= b < |blocks| ==> blocks[b] < |functions|
    }
  }

  const Unimplemented := Diagnostic("unimplemented", Internal)
  const UnexpectedPoint := Diagnostic("unexpected point reached", Internal)

  /** The bit width of each integer size. */
  function IntWidth(size: IntSize): (w: nat)
    ensures w in {8, 16, 32, 64, 128}
  {
    match size
    case Signed8 => 8
    case Signed16 => 16
    case Signed32 => 32
    case Signed64 => 64
    case Signed128 => 128
  }

  /** Distinct integer sizes get distinct target widths. */
  lemma IntWidthInjective(a: IntSize, b: IntSize)
    ensures IntWidth(a) == IntWidth(b) ==> a == b
  {
  }

  /** The target type `visit_int_kind` / `visit_void_kind` record for a kind. */
  function KindType(k: AnyKindNode): (t: TargetType)
    ensures k.AnyInt? <==> t.IntType?
    ensures k.AnyVoid? <==> t.VoidType?
    ensures k.AnyInt? ==> t.width == IntWidth(k.intKind.size)
  {
    match k
    case AnyInt(i) => IntType(IntWidth(i.size))
    case AnyVoid(_) => VoidType
  }

  /** The constant `visit_bool_literal` records: a 1-bit integer, 1 for true. */
  function LiteralValue(v: AnyLiteralNode): (t: TargetValue)
    ensures t.width == 1 && (t.bits == 1 <==> v.boolLiteral.value) && t.bits <= 1
  {
    IntValue(1, if v.boolLiteral.value then 1 else 0)
  }

  /** `get_function_type_from`: a parameterless signature over an integer,
      float or void return type; any other type is an internal error. */
  function GetFunctionTypeFrom(returnType: TargetType, isVariadic: bool): (r: Result<FunctionSignature, Diagnostic>)
    ensures r.Ok? <==> (returnType.IntType? || returnType.FloatType? || returnType.VoidType?)
    ensures r.Ok? ==> r.value.returnType == returnType && r.value.parameterTypes == [] && r.value.isVariadic == isVariadic
    ensures r.Err? ==> r.error == UnexpectedPoint && r.error.severity == Internal
  {
    match returnType
    case IntType(_) => Ok(FunctionSignature(returnType, [], isVariadic))
    case FloatType => Ok(FunctionSignature(returnType, [], isVariadic))
    case VoidType => Ok(FunctionSignature(returnType, [], isVariadic))
    case _ => Err(UnexpectedPoint)
  }

  /** Every kind's target type has a function signature, so the error exit of
      `get_function_type_from` is never taken by the visit methods. */
  lemma KindTypeHasSignature(k: AnyKindNode, isVariadic: bool)
    ensures GetFunctionTypeFrom(KindType(k), isVariadic) == Ok(FunctionSignature(KindType(k), [], isVariadic))
  {
  }

  function ReturnKind(t: TopLevelNode): AnyKindNode
  {
    match t
    case FunctionNode(f) => f.prototype.returnKindGroup.kind
    case ExternalNode(e) => e.prototype.returnKindGroup.kind
  }

  /** The declaration `visit_function` / `visit_external` add to the module:
      functions are External exactly when public, externals always External. */
  function DeclOf(t: TopLevelNode): (d: FunctionDecl)
    ensures d.linkage == ExternalLinkage <==> (t.ExternalNode? || t.fn.isPublic)
    ensures d.signature == FunctionSignature(KindType(ReturnKind(t)), [], (if t.FunctionNode? then t.fn.prototype else t.external.prototype).isVariadic)
  {
    match t
    case FunctionNode(f) =>
      FunctionDecl(f.prototype.name, FunctionSignature(KindType(ReturnKind(t)), [], f.prototype.isVariadic),
                   if f.isPublic then ExternalLinkage else PrivateLinkage)
    case ExternalNode(e) =>
      FunctionDecl(e.prototype.name, FunctionSignature(KindType(ReturnKind(t)), [], e.prototype.isVariadic), ExternalLinkage)
  }

  /** `visit_return_stmt` once a block is open: a returned value must already
      be in the value map. */
  function ReturnResult(s: ReturnStmt, values: map<AnyLiteralNode, TargetValue>): (r: PassResult)
    ensures r.Failure? <==> (s.value.Some? && s.value.value !in values)
    ensures r.Failure? ==> r.diagnostic == Unimplemented
  {
    match s.value
    case Some(v) => if v in values then Success else Failure(Unimplemented)
    case None => Success
  }

  /** The statements of a block visited in order, stopping at the first failure. */
  function BlockResult(statements: seq<AnyStatementNode>, values: map<AnyLiteralNode, TargetValue>): (r: PassResult)
    ensures r.Success? <==> forall i :: 0 <= i < |statements| ==> ReturnResult(statements[i].returnStmt, values).Success?
    ensures r.Failure? ==> r.diagnostic == Unimplemented
  {
    if statements == [] then Success
    else match ReturnResult(statements[0].returnStmt, values)
      case Failure(d) => Failure(d)
      case Success =>
        var rest := BlockResult(statements[1..], values);
        assert forall i :: 1 <= i < |statements| ==> statements[i] == statements[1..][i - 1];
        rest
  }

  /** The block `visit_function` visits: an empty body becomes a single
      value-less return. */
  function EffectiveBody(body: Block): (b: Block)
    ensures |body.statements| == 0 ==> b == Block([AnyReturn(ReturnStmt(None))])
    ensures |body.statements| != 0 ==> b == body
  {
    if |body.statements| == 0 then Block([AnyReturn(ReturnStmt(None))]) else body
  }

  /** A function whose body is empty lowers without error, whatever the value map. */
  lemma EmptyBodyLowers(body: Block, values: map<AnyLiteralNode, TargetValue>)
    requires |body.statements| == 0
    ensures BlockResult(EffectiveBody(body).statements, values) == Success
  {
    assert ReturnResult(EffectiveBody(body).statements[0].returnStmt, values) == Success;
  }

  /** Whether lowering this top-level node can succeed with the given value map. */
  ghost predicate Lowerable(t: TopLevelNode, values: map<AnyLiteralNode, TargetValue>)
  {
    t.FunctionNode? ==> BlockResult(EffectiveBody(t.fn.body).statements, values).Success?
  }

  class LlvmLoweringPass {
    var targetModule: TargetModule
    var typeMap: map<AnyKindNode, TargetType>
    var valueMap: map<AnyLiteralNode, TargetValue>
    /** The current function (the builder is always at the end of the current block). */
    var functionBuffer: Option<nat>
    /** The current basic block. */
    var basicBlockBuffer: Option<nat>

    /** The memo tables only hold the canonical entry of each node, and the
        cursors name existing functions and blocks. */
    ghost predicate Valid()
      reads this
    {
      && targetModule.WellFormed()
      && (forall k :: k in typeMap ==> typeMap[k] == KindType(k))
      && (forall v :: v in valueMap ==> valueMap[v] == LiteralValue(v))
      && (functionBuffer.Some? ==> functionBuffer.value < |targetModule.functions|)
      && (basicBlockBuffer.Some? ==> basicBlockBuffer.value < |targetModule.blocks|)
    }

    /** `LlvmLoweringPass::new`: empty memo tables and no cursors. */
    constructor (m: TargetModule)
      requires m.WellFormed()
      ensures Valid()
      ensures targetModule == m && typeMap == map[] && valueMap == map[]
      ensures functionBuffer == None && basicBlockBuffer == None
    {
      targetModule := m;
      typeMap := map[];
      valueMap := map[];
      functionBuffer := None;
      basicBlockBuffer := None;
    }

    /** `visit_int_kind`: records the integer type of the kind's width. */
    method VisitIntKind(k: IntKind) returns (r: PassResult)
      requires Valid()
      modifies this`typeMap
      ensures Valid() && r == Success
      ensures typeMap == old(typeMap)[AnyInt(k) := IntType(IntWidth(k.size))]
    {
      typeMap := typeMap[AnyInt(k) := IntType(IntWidth(k.size))];
      r := Success;
    }

    /** `visit_void_kind`: records the void type. */
    method VisitVoidKind(v: VoidKind) returns (r: PassResult)
      requires Valid()
      modifies this`typeMap
      ensures Valid() && r == Success
      ensures typeMap == old(typeMap)[AnyVoid(v) := VoidType]
    {
      typeMap := typeMap[AnyVoid(v) := VoidType];
      r := Success;
    }

    /** `visit_or_retrieve_type`: visits the node only when it is not yet a key,
        so an entry is made at most once per distinct node, and returns the
        cached entry. */
    method VisitOrRetrieveType(node: AnyKindNode) returns (r: Result<Option<TargetType>, Diagnostic>)
      requires Valid()
      modifies this`typeMap
      ensures Valid()
      ensures node in typeMap && r == Ok(Some(KindType(node)))
      ensures old(node in typeMap) ==> typeMap == old(typeMap)
      ensures typeMap == old(typeMap)[node := KindType(node)]
    {
      if node !in typeMap {
        var visited: PassResult;
        match node {
          case AnyInt(k) => visited := VisitIntKind(k);
          case AnyVoid(v) => visited := VisitVoidKind(v);
        }
      }
      r := Ok(if node in typeMap then Some(typeMap[node]) else None);
    }

    /** `visit_or_retrieve_value`: only already-cached values can be returned;
        producing a new one is unimplemented. */
    method VisitOrRetrieveValue(node: AnyLiteralNode) returns (r: Result<Option<TargetValue>, Diagnostic>)
      requires Valid()
      ensures node in valueMap ==> r == Ok(Some(LiteralValue(node)))
      ensures node !in valueMap ==> r == Err(Unimplemented)
    {
      if node !in valueMap {
        return Err(Unimplemented);
      }
      r := Ok(Some(valueMap[node]));
    }

    /** `visit_bool_literal`: records the 1-bit constant of the literal. */
    method VisitBoolLiteral(b: BoolLiteral) returns (r: PassResult)
      requires Valid()
      modifies this`valueMap
      ensures Valid() && r == Success
      ensures valueMap == old(valueMap)[AnyBool(b) := LiteralValue(AnyBool(b))]
    {
      valueMap := valueMap[AnyBool(b) := IntValue(1, if b.value then 1 else 0)];
      r := Success;
    }

    /** `visit_return_stmt`: needs a current block, and a returned value must
        be cached. The return instruction itself is not emitted. */
    method VisitReturnStmt(s: ReturnStmt) returns (r: PassResult)
      requires Valid()
      ensures basicBlockBuffer.None? ==> r == Failure(AssertionFailed)
      ensures basicBlockBuffer.Some? ==> r == ReturnResult(s, valueMap)
    {
      if basicBlockBuffer.None? {
        return Failure(AssertionFailed);
      }
      match s.value {
        case Some(v) =>
          var value := VisitOrRetrieveValue(v);
          if value.Err? {
            return Failure(value.error);
          }
        case None =>
      }
      r := Success;
    }

    /** `visit_block`: needs a current function; opens a block in it, makes it
        the current block and visits the statements in order. */
    method VisitBlock(b: Block) returns (r: PassResult)
      requires Valid()
      modifies this`targetModule, this`basicBlockBuffer
      ensures Valid()
      ensures old(functionBuffer).None? ==>
        r == Failure(AssertionFailed) && targetModule == old(targetModule) && basicBlockBuffer == old(basicBlockBuffer)
      ensures old(functionBuffer).Some? ==>
        && targetModule == old(targetModule).(blocks := old(targetModule).blocks + [old(functionBuffer).value])
        && basicBlockBuffer == Some(|old(targetModule).blocks|)
        && r == BlockResult(b.statements, valueMap)
    {
      if functionBuffer.None? {
        return Failure(AssertionFailed);
      }
      var block := |targetModule.blocks|;
      targetModule := targetModule.(blocks := targetModule.blocks + [functionBuffer.value]);
      basicBlockBuffer := Some(block);
      var i := 0;
      while i < |b.statements|
        invariant i <= |b.statements|
        invariant Valid()
        invariant targetModule == old(targetModule).(blocks := old(targetModule).blocks + [old(functionBuffer).value])
        invariant basicBlockBuffer == Some(block)
        invariant BlockResult(b.statements, valueMap) == BlockResult(b.statements[i..], valueMap)
      {
        assert b.statements[i..][1..] == b.statements[i + 1..];
        match b.statements[i] {
          case AnyReturn(s) =>
            var result := VisitReturnStmt(s);
            if result.Failure? {
              return result;
            }
        }
        i := i + 1;
      }
      r := Success;
    }

    /** `visit_function`: resolves the return type, declares the function with
        External linkage when public and Private otherwise, makes it the
        current function, and visits its body, an empty body being replaced by
        a value-less return. */
    method VisitFunction(f: Function) returns (r: PassResult)
      requires Valid()
      modifies this
      ensures Valid()
      ensures typeMap == old(typeMap)[f.prototype.returnKindGroup.kind := KindType(f.prototype.returnKindGroup.kind)]
      ensures valueMap == old(valueMap)
      ensures targetModule.name == old(targetModule).name
      ensures targetModule.functions == old(targetModule).functions + [DeclOf(FunctionNode(f))]
      ensures functionBuffer == Some(|old(targetModule).functions|)
      ensures targetModule.blocks == old(targetModule).blocks + [|old(targetModule).functions|]
      ensures basicBlockBuffer == Some(|old(targetModule).blocks|)
      ensures r == BlockResult(EffectiveBody(f.body).statements, valueMap)
    {
      var kind := f.prototype.returnKindGroup.kind;
      var returnType := VisitOrRetrieveType(kind);
      KindTypeHasSignature(kind, f.prototype.isVariadic);
      var functionType := GetFunctionTypeFrom(returnType.value.value, f.prototype.isVariadic);
      var linkage := if f.isPublic then ExternalLinkage else PrivateLinkage;
      functionBuffer := Some(|targetModule.functions|);
      targetModule := targetModule.(functions := targetModule.functions + [FunctionDecl(f.prototype.name, functionType.value, linkage)]);
      var emptyBodyBlock := Block([AnyReturn(ReturnStmt(None))]);
      r := VisitBlock(if |f.body.statements| == 0 then emptyBodyBlock else f.body);
    }

    /** `visit_external`: resolves the return type and declares the function,
        always with External linkage; the cursors are left alone. */
    method VisitExternal(e: External) returns (r: PassResult)
      requires Valid()
      modifies this`typeMap, this`targetModule
      ensures Valid() && r == Success
      ensures typeMap == old(typeMap)[e.prototype.returnKindGroup.kind := KindType(e.prototype.returnKindGroup.kind)]
      ensures targetModule == old(targetModule).(functions := old(targetModule).functions + [DeclOf(ExternalNode(e))])
    {
      var kind := e.prototype.returnKindGroup.kind;
      var returnType := VisitOrRetrieveType(kind);
      KindTypeHasSignature(kind, e.prototype.isVariadic);
      var functionType := GetFunctionTypeFrom(returnType.value.value, e.prototype.isVariadic);
      targetModule := targetModule.(functions := targetModule.functions + [FunctionDecl(e.prototype.name, functionType.value, ExternalLinkage)]);
      r := Success;
    }

    /** The state lowering builds up: the target module, the type cache and
        the two cursors. */
    ghost function State(): PassState
      reads this
    {
      PassState(targetModule, typeMap, functionBuffer, basicBlockBuffer)
    }

    /** The dispatch of `visit_namespace` on one symbol-table entry. */
    method VisitTopLevel(node: TopLevelNode) returns (r: PassResult)
      requires Valid()
      modifies this
      ensures Valid()
      ensures valueMap == old(valueMap)
      ensures State() == Step(old(State()), node)
      ensures r.Failure? <==> !Lowerable(node, valueMap)
      ensures r.Failure? ==> r.diagnostic == Unimplemented
    {
      match node {
        case FunctionNode(f) =>
          r := VisitFunction(f);
        case ExternalNode(e) =>
          r := VisitExternal(e);
      }
    }

    /** One iteration of `visit_namespace`: visits the remaining symbol `name`
        as the next one in the visiting order. */
    method VisitSymbol(ns: Namespace, name: string, ghost remaining: set<string>, ghost order: seq<string>,
                       ghost start: PassState) returns (r: PassResult)
      requires Valid() && name in remaining
      requires Enumerates(ns.symbolTable, remaining, order)
      requires State() == Replay(start, ns.symbolTable, order)
      modifies this
      ensures Valid() && valueMap == old(valueMap)
      ensures Enumerates(ns.symbolTable, remaining - {name}, order + [name])
      ensures State() == Replay(start, ns.symbolTable, order + [name])
      ensures r.Failure? <==> !Lowerable(ns.symbolTable[name], valueMap)
      ensures r.Failure? ==> r.diagnostic == Unimplemented
    {
      r := VisitTopLevel(ns.symbolTable[name]);
      EnumeratesStep(ns.symbolTable, remaining, order, name);
      assert (order + [name])[..|order|] == order;
    }

    /** `visit_namespace`: visits every symbol once, in an unspecified order
        returned as `order`, and stops at the first failure. The new state is
        that of visiting the symbols of `order` one after the other; on success
        `order` lists every symbol exactly once and all of them can be lowered,
        and on failure the last symbol visited is the first that cannot. */
    method VisitNamespace(ns: Namespace) returns (r: PassResult, ghost order: seq<string>)
      requires Valid()
      modifies this
      ensures Valid() && valueMap == old(valueMap)
      ensures forall j :: 0 <= j < |order| ==> order[j] in ns.symbolTable
      ensures forall i, j :: 0 <= i < j < |order| ==> order[i] != order[j]
      ensures State() == Replay(old(State()), ns.symbolTable, order)
      ensures targetModule.name == old(targetModule).name
      ensures DeclaresInOrder(ns.symbolTable, old(targetModule).functions, targetModule.functions, order)
      ensures r.Success? ==> |order| == |ns.symbolTable| && forall name :: name in ns.symbolTable ==> name in order
      ensures r.Success? ==> forall name :: name in ns.symbolTable ==> Lowerable(ns.symbolTable[name], valueMap)
      ensures r.Failure? ==> r.diagnostic == Unimplemented && |order| > 0
      ensures r.Failure? ==> !Lowerable(ns.symbolTable[order[|order| - 1]], valueMap)
      ensures r.Failure? ==> forall j :: 0 <= j < |order| - 1 ==> Lowerable(ns.symbolTable[order[j]], valueMap)
    {
      ghost var start := State();
      var remaining := ns.symbolTable.Keys;
      order := [];
      r := Success;
      while remaining != {}
        invariant Valid() && valueMap == old(valueMap) && r == Success
        invariant Enumerates(ns.symbolTable, remaining, order)
        invariant State() == Replay(start, ns.symbolTable, order)
        invariant forall name :: name in ns.symbolTable && name !in remaining ==> Lowerable(ns.symbolTable[name], valueMap)
        decreases remaining
      {
        var name :| name in remaining;
        ghost var visited := order;
        r := VisitSymbol(ns, name, remaining, order, start);
        order := order + [name];
        if r.Failure? {
          assert forall j :: 0 <= j < |visited| ==> order[j] == visited[j] && visited[j] !in remaining;
          ReplayDeclares(start, ns.symbolTable, order);
          assert State().target == targetModule;
          return;
        }
        remaining := remaining - {name};
      }
      ReplayDeclares(start, ns.symbolTable, order);
      assert State().target == targetModule;
    }
  }

  /** What lowering has built so far: the target module, the type cache and
      the current function and block. */
  datatype PassState = PassState(target: TargetModule, types: map<AnyKindNode, TargetType>,
                                 currentFunction: Option<nat>, currentBlock: Option<nat>)

  /** The state after visiting one symbol-table entry: its declaration is
      appended and its return kind cached; a function, unlike an external, also
      opens a block and becomes the current function, with that block current. */
  ghost function Step(s: PassState, node: TopLevelNode): PassState
  {
    var m := s.target;
    var types := s.types[ReturnKind(node) := KindType(ReturnKind(node))];
    var functions := m.functions + [DeclOf(node)];
    if node.FunctionNode? then
      PassState(TargetModule(m.name, functions, m.blocks + [|m.functions|]), types, Some(|m.functions|), Some(|m.blocks|))
    else
      PassState(TargetModule(m.name, functions, m.blocks), types, s.currentFunction, s.currentBlock)
  }

  /** The state after visiting the entries `order` names, one after the other. */
  ghost function Replay(s: PassState, table: map<string, TopLevelNode>, order: seq<string>): PassState
    requires forall j :: 0 <= j < |order| ==> order[j] in table
  {
    if order == [] then s
    else Step(Replay(s, table, order[..|order| - 1]), table[order[|order| - 1]])
  }

  /** The return kinds of the entries `order` names. */
  ghost function KindsOf(table: map<string, TopLevelNode>, order: seq<string>): set<AnyKindNode>
    requires forall j :: 0 <= j < |order| ==> order[j] in table
  {
    if order == [] then {}
    else KindsOf(table, order[..|order| - 1]) + {ReturnKind(table[order[|order| - 1]])}
  }

  /** `fs` is `prior` followed by one declaration per entry of `order`, in
      that order. */
  ghost predicate DeclaresInOrder(table: map<string, TopLevelNode>, prior: seq<FunctionDecl>, fs: seq<FunctionDecl>,
                                  order: seq<string>)
    requires forall j :: 0 <= j < |order| ==> order[j] in table
  {
    && |fs| == |prior| + |order| && fs[..|prior|] == prior
    && forall j :: 0 <= j < |order| ==> fs[|prior| + j] == DeclOf(table[order[j]])
  }

  /** Visiting `order` keeps the module's name and its earlier declarations,
      appends one declaration per entry, in the order visited, and caches the
      return kinds of those entries and no other. */
  lemma {:induction false} ReplayDeclares(s: PassState, table: map<string, TopLevelNode>, order: seq<string>)
    requires forall j :: 0 <= j < |order| ==> order[j] in table
    ensures Replay(s, table, order).target.name == s.target.name
    ensures DeclaresInOrder(table, s.target.functions, Replay(s, table, order).target.functions, order)
    ensures Replay(s, table, order).types.Keys == s.types.Keys + KindsOf(table, order)
    decreases |order|
  {
    if order != [] {
      var init := order[..|order| - 1];
      ReplayDeclares(s, table, init);
      var before := Replay(s, table, init).target.functions;
      var after := Replay(s, table, order).target.functions;
      assert after == before + [DeclOf(table[order[|order| - 1]])];
      assert after[..|s.target.functions|] == before[..|s.target.functions|];
      forall j | 0 <= j < |order|
        ensures after[|s.target.functions| + j] == DeclOf(table[order[j]])
      {
        if j < |init| {
          assert init[j] == order[j];
        }
      }
    }
  }

  /** Visiting `order` keeps the earlier blocks and opens one new block per
      function node, in a function declared after the earlier ones. */
  lemma {:induction false} ReplayKeepsBlocks(s: PassState, table: map<string, TopLevelNode>, order: seq<string>)
    requires forall j :: 0 <= j < |order| ==> order[j] in table
    ensures |s.target.blocks| <= |Replay(s, table, order).target.blocks|
    ensures Replay(s, table, order).target.blocks[..|s.target.blocks|] == s.target.blocks
    decreases |order|
  {
    if order != [] {
      var init := order[..|order| - 1];
      ReplayKeepsBlocks(s, table, init);
      var prev := Replay(s, table, init);
      var after := Replay(s, table, order).target.blocks;
      assert after[..|prev.target.blocks|] == prev.target.blocks;
      assert after[..|s.target.blocks|] == prev.target.blocks[..|s.target.blocks|];
    }
  }

  /** Visiting `order` declares one function per entry. */
  lemma {:induction false} ReplayCountsFunctions(s: PassState, table: map<string, TopLevelNode>, order: seq<string>)
    requires forall j :: 0 <= j < |order| ==> order[j] in table
    ensures |Replay(s, table, order).target.functions| == |s.target.functions| + |order|
    decreases |order|
  {
    if order != [] {
      ReplayCountsFunctions(s, table, order[..|order| - 1]);
    }
  }

  /** Every block opened while visiting `order` belongs to a new function, the
      declaration of a function node of `order`. */
  lemma {:induction false} ReplayBlocks(s: PassState, table: map<string, TopLevelNode>, order: seq<string>)
    requires forall j :: 0 <= j < |order| ==> order[j] in table
    ensures forall b :: |s.target.blocks| <= b < |Replay(s, table, order).target.blocks| ==>
      var f := Replay(s, table, order).target.blocks[b];
      |s.target.functions| <= f < |s.target.functions| + |order| && table[order[f - |s.target.functions|]].FunctionNode?
    decreases |order|
  {
    if order != [] {
      var init := order[..|order| - 1];
      var last := table[order[|order| - 1]];
      ReplayBlocks(s, table, init);
      ReplayCountsFunctions(s, table, init);
      var prev := Replay(s, table, init);
      var before := prev.target.blocks;
      var after := Replay(s, table, order).target.blocks;
      assert after == if last.FunctionNode? then before + [|prev.target.functions|] else before;
      forall b | |s.target.blocks| <= b < |before|
        ensures |s.target.functions| <= after[b] < |s.target.functions| + |order|
        ensures table[order[after[b] - |s.target.functions|]].FunctionNode?
      {
        assert init[before[b] - |s.target.functions|] == order[before[b] - |s.target.functions|];
      }
    }
  }

  /** Visiting `order` either leaves the cursors as they were or makes the
      last opened block current, with its function the current function. */
  lemma {:induction false} ReplayCursors(s: PassState, table: map<string, TopLevelNode>, order: seq<string>)
    requires forall j :: 0 <= j < |order| ==> order[j] in table
    ensures var r := Replay(s, table, order);
      || (r.currentFunction == s.currentFunction && r.currentBlock == s.currentBlock)
      || (|r.target.blocks| > 0 && r.currentBlock == Some(|r.target.blocks| - 1)
          && r.currentFunction == Some(r.target.blocks[|r.target.blocks| - 1]))
    decreases |order|
  {
    if order != [] {
      var init := order[..|order| - 1];
      var last := table[order[|order| - 1]];
      ReplayCursors(s, table, init);
      var prev := Replay(s, table, init);
      assert Replay(s, table, order) == Step(prev, last);
    }
  }

  /** `order` lists the symbols visited so far, each once, and `remaining`
      holds the others. */
  ghost predicate Enumerates(table: map<string, TopLevelNode>, remaining: set<string>, order: seq<string>)
  {
    && remaining <= table.Keys
    && |order| + |remaining| == |table|
    && (forall j :: 0 <= j < |order| ==> order[j] in table && order[j] !in remaining)
    && (forall i, j :: 0 <= i < j < |order| ==> order[i] != order[j])
    && (forall name :: name in table && name !in remaining ==> name in order)
  }

  /** Visiting one more remaining symbol keeps the enumeration. */
  lemma EnumeratesStep(table: map<string, TopLevelNode>, remaining: set<string>, order: seq<string>, name: string)
    requires Enumerates(table, remaining, order) && name in remaining
    ensures Enumerates(table, remaining - {name}, order + [name])
  {
    assert remaining == (remaining - {name}) + {name};
    var order' := order + [name];
    forall n | n in table && n !in remaining - {name}
      ensures n in order'
    {
      if n != name {
        assert n in order;
      }
    }
  }

  /** `llvm_lowering_pass_proper_initial_values` and
      `llvm_lowering_pass_visit_or_retrieve_type`: a fresh pass has no cached
      types, one call caches one entry, and a second call on an equal node
      returns the same type and changes nothing. */
  method MemoisesOnce() returns (initialSize: nat, first: Result<Option<TargetType>, Diagnostic>, sizeAfterFirst: nat,
                                 second: Result<Option<TargetType>, Diagnostic>, sizeAfterSecond: nat)
    ensures initialSize == 0
    ensures first == Ok(Some(IntType(32))) && sizeAfterFirst == 1
    ensures second == first && sizeAfterSecond == 1
  {
    var pass := new LlvmLoweringPass(TargetModule("test", [], []));
    initialSize := |pass.typeMap|;
    var node := AnyInt(IntKind(Signed32));
    first := pass.VisitOrRetrieveType(node);
    assert pass.typeMap == map[node := IntType(32)];
    sizeAfterFirst := |pass.typeMap|;
    second := pass.VisitOrRetrieveType(AnyInt(IntKind(Signed32)));
    assert pass.typeMap == map[node := IntType(32)];
    sizeAfterSecond := |pass.typeMap|;
  }

  /** `llvm_lowering_pass_visit_void_kind` and `..._visit_int_kind`: each
      visit succeeds and leaves one entry in a fresh pass's type map. */
  method VisitKindsCacheOneEntry() returns (voidResult: PassResult, voidSize: nat, intResult: PassResult, intSize: nat)
    ensures voidResult == Success && voidSize == 1
    ensures intResult == Success && intSize == 1
  {
    var pass := new LlvmLoweringPass(TargetModule("test", [], []));
    voidResult := pass.VisitVoidKind(VoidKind);
    voidSize := |pass.typeMap|;
    var other := new LlvmLoweringPass(TargetModule("test", [], []));
    intResult := other.VisitIntKind(IntKind(Signed32));
    intSize := |other.typeMap|;
  }

  /** `visit_function`: a private void function with an empty body lowers, is
      declared Private and becomes the current function. */
  method LowerEmptyPrivateFunction() returns (r: PassResult, declared: seq<FunctionDecl>, current: Option<nat>)
    ensures r == Success && current == Some(0)
    ensures declared == [FunctionDecl("foo", FunctionSignature(VoidType, [], false), PrivateLinkage)]
  {
    var pass := new LlvmLoweringPass(TargetModule("test", [], []));
    var proto := Prototype("foo", [], false, KindGroup(AnyVoid(VoidKind), false, false));
    var f := Function(false, proto, Block([]));
    EmptyBodyLowers(f.body, pass.valueMap);
    r := pass.VisitFunction(f);
    declared := pass.targetModule.functions;
    current := pass.functionBuffer;
  }
}
