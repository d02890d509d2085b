/** The AST node model the passes walk: kinds, kind groups, prototypes,
    functions, externals, blocks, statements, literals and the namespace
    (src/node.rs and its neighbours), with the projections and injections of
    src/node.rs. */
module Nodes {
  import opened Wrappers

  /** The five signed integer widths the lowering pass distinguishes. */
  datatype IntSize = Signed8 | Signed16 | Signed32 | Signed64 | Signed128

  datatype IntKind = IntKind(size: IntSize)

  datatype VoidKind = VoidKind

  /** `AnyKindNode::IntKind` and `AnyKindNode::VoidKind`. */
  datatype AnyKindNode = AnyInt(intKind: IntKind) | AnyVoid(voidKind: VoidKind)

  datatype KindGroup = KindGroup(kind: AnyKindNode, isReference: bool, isMutable: bool)

  datatype Parameter = Parameter(name: string, kindGroup: KindGroup)

  datatype Prototype = Prototype(name: string, parameters: seq<Parameter>, isVariadic: bool, returnKindGroup: KindGroup)

  datatype BoolLiteral = BoolLiteral(value: bool)

  /** `AnyLiteralNode`: only boolean literals are in scope. */
  datatype AnyLiteralNode = AnyBool(boolLiteral: BoolLiteral)

  datatype ReturnStmt = ReturnStmt(value: Option<AnyLiteralNode>)

  /** `AnyStatementNode`: a return statement is the only statement. */
  datatype AnyStatementNode = AnyReturn(returnStmt: ReturnStmt)

  datatype Block = Block(statements: seq<AnyStatementNode>)

  datatype Function = Function(isPublic: bool, prototype: Prototype, body: Block)

  datatype External = External(prototype: Prototype)

  datatype TopLevelNode = FunctionNode(fn: Function) | ExternalNode(external: External)

  datatype Namespace = Namespace(name: string, symbolTable: map<string, TopLevelNode>)

  /** Any value that implements the `Node` capability. */
  datatype AnyNode =
    | NamespaceNode(namespace: Namespace)
    | TopLevel(topLevel: TopLevelNode)
    | PrototypeNode(prototype: Prototype)
    | BlockNode(block: Block)
    | KindNode(kind: AnyKindNode)

  /** `AnyKindNode::into_int_kind`. */
  function IntoIntKind(n: AnyKindNode): (r: Option<IntKind>)
    ensures r.Some? <==> n.AnyInt?
    ensures r.Some? ==> n == AnyInt(r.value)
  {
    if n.AnyInt? then Some(n.intKind) else None
  }

  /** `AnyKindNode::into_void_kind`. */
  function IntoVoidKind(n: AnyKindNode): (r: Option<VoidKind>)
    ensures r.Some? <==> n.AnyVoid?
    ensures r.Some? ==> n == AnyVoid(r.value)
  {
    if n.AnyVoid? then Some(n.voidKind) else None
  }

  /** `impl From<IntKind> for AnyKindNode`. */
  function FromIntKind(k: IntKind): (n: AnyKindNode)
    ensures IntoIntKind(n) == Some(k)
  {
    AnyInt(k)
  }

  /** `impl From<VoidKind> for AnyKindNode`. */
  function FromVoidKind(v: VoidKind): (n: AnyKindNode)
    ensures IntoVoidKind(n) == Some(v)
  {
    AnyVoid(v)
  }

  /** Every kind node answers exactly one of the two projections. */
  lemma ExactlyOneProjection(n: AnyKindNode)
    ensures IntoIntKind(n).Some? != IntoVoidKind(n).Some?
  {
  }

  /** Projecting then injecting gives the node back. */
  lemma ProjectionInverts(n: AnyKindNode)
    ensures IntoIntKind(n).Some? ==> FromIntKind(IntoIntKind(n).value) == n
    ensures IntoVoidKind(n).Some? ==> FromVoidKind(IntoVoidKind(n).value) == n
  {
  }

  /** The default `Node::get_children`: no node type overrides it, so every node
      reports no children. */
  function GetChildren(n: AnyNode): (children: seq<AnyNode>)
    ensures |children| == 0
  {
    []
  }
}
