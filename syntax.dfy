/** The tree the parser builds: expressions with their token lists, function calls with
    their argument lists, and the statement nodes. What the tree refers to at run time
    (the value of a variable, a literal, a proxy, an expression's own value) lives in the
    store and is named by a Ref. */
module Syntax {
  import opened Wrappers
  import opened Entities
  import opened Store

  /** One entry of Expression._tokens. */
  datatype Token =
    | ConstToken(cell: Ref, origin: Origin)     // a literal Const, appended by Append(Entity)
    | ProxyToken(cell: Ref)                     // the OperableClone that Append(Operable?) makes
    | SymbolToken(tokenType: EntityType)        // any other bare Entity: an operator, a parenthesis, ...
    | CallToken(call: Call)                     // a FunctionCall

  /** An Expression object: its own value is the cell, `tokens` its token list. */
  datatype Expr = Expr(cell: Ref, tokens: seq<Token>)

  /** A FunctionCall: its target (null when there is none), its result object and its
      argument list. */
  datatype Call = Call(callee: Option<FunctionId>, result: Ref, arguments: seq<Argument>)

  /** One entry of FunctionCall._arguments. */
  datatype Argument =
    | VariableArgument(cell: Ref)               // a global variable, passed as the object itself
    | ConstArgument(cell: Ref, origin: Origin)  // a literal Const
    | ProxyArgument(cell: Ref)                  // the caller's parameter proxy
    | ExpressionArgument(expr: Expr)            // an Expression over several tokens

  /** The target of a RETURN: the Script or a Function. */
  datatype Returnable = ScriptReturnable | FunctionReturnable(owner: FunctionId)

  /** An IExecutable the parser creates. */
  datatype Node =
    | ExpressionNode(expr: Expr)
    | IfNode(condition: Expr, body: seq<Node>)
    | WhileNode(loop: LoopId, condition: Expr, body: seq<Node>)
    | ForNode(loop: LoopId, variables: seq<Ref>, collection: Expr, body: seq<Node>)
    | ReturnNode(returnable: Returnable)
    | BreakNode(target: Option<LoopId>)
    | ContinueNode(target: Option<LoopId>)
  {
    predicate IsLoop() { WhileNode? || ForNode? }

    /** The Statement containers' Executables list. */
    function Children(): seq<Node> {
      match this
      case IfNode(_, b) => b
      case WhileNode(_, _, b) => b
      case ForNode(_, _, _, b) => b
      case _ => []
    }
  }

  /** A Function's fixed parts: its own Operable (the value its name is assigned) and its
      body. */
  datatype FunctionDef = FunctionDef(cell: Ref, body: seq<Node>)

  /** What LoadFromSource leaves in a Script besides the store: the top-level statements and
      the declared functions, by FunctionId. */
  datatype Program = Program(body: seq<Node>, functions: seq<FunctionDef>)

  function DefOf(prog: Program, f: FunctionId): FunctionDef {
    if f < |prog.functions| then prog.functions[f] else FunctionDef(0, [])
  }
}
