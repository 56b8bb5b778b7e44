/** Script's parser: ProcessContainer and its helpers, which turn the lexer's token list into
    the tree of Syntax while they fill the Script's variable and function dictionaries and
    create the objects the tree refers to (literals, proxies, expressions, call results,
    functions and loops) in the store.

    Each helper is a function of the parser's state and a token position that returns the
    new state and the position it stopped at; a thrown exception is an `Err`. A token list
    is always the one the helper was given: ProcessContainer recurses on the list a block's
    braces enclose, and an argument is parsed from the list of its own tokens. */
module Parser {
  import opened Wrappers
  import opened Numerics
  import opened Entities
  import opened Operables
  import opened Store
  import opened Syntax
  import Lexer

  /** What parsing changes: the store, the Script's `_variables` and `_functions`
      dictionaries (a function by its FunctionId), and the tree built so far (the Script's
      Executables and each Function's body). */
  datatype Parse = Parse(
    st: State,
    variables: map<string, Ref>,
    functionIds: map<string, FunctionId>,
    prog: Program)

  /** Where ProcessContainer appends the statements it makes: the Script's list, a
      Function's list, or the list of the IF, WHILE or FOR being built, which is returned. */
  datatype Sink = ScriptSink | FunctionSink(f: FunctionId) | StatementSink

  /** The arguments of ProcessContainer besides the tokens: the container, whether the
      container is a Function (the scope FOR resolves its variables in), the last returnable
      and the last loop. */
  datatype Context = Context(sink: Sink, containerFunction: Option<FunctionId>,
                             returnable: Returnable, loop: Option<LoopId>)

  /** `parent is Function`: a Script or a statement resolves no parameters. */
  function ScopeOf(r: Returnable): (scope: Option<FunctionId>)
    ensures scope.Some? <==> r.FunctionReturnable?
  {
    match r
    case ScriptReturnable => Option.None
    case FunctionReturnable(f) => Some(f)
  }

  /** `(token as Undefined)?.Content`: the text of an identifier, null for any other token. */
  function ContentOf(e: Entity): (r: Option<string>)
    ensures r.Some? <==> e.Word?
  {
    match e
    case Word(c) => Some(c)
    case _ => Option.None
  }

  /** A new Script: empty dictionaries, no statements, an empty store. */
  function NewScript(): Parse {
    Parse(State([], map[], [], [], false), map[], map[], Program([], []))
  }

  // ------------------------------------------------------------------ objects the parser creates

  /** new Function(): its own Operable, an empty argument table and an empty body. */
  function NewFunction(ps: Parse): (r: (Parse, FunctionId))
    ensures r.1 == |ps.st.functions| && |r.0.st.functions| == |ps.st.functions| + 1
    ensures r.0.st.functions == ps.st.functions + [FunctionState([], false, 0)]
    ensures r.0.prog.functions == ps.prog.functions + [FunctionDef(|ps.st.cells|, [])]
    ensures |r.0.st.cells| == |ps.st.cells| + 1 && r.0.prog.body == ps.prog.body
  {
    var (s1, cell) := NewCell(ps.st, NewOperable(Integer));
    var s2 := s1.(functions := s1.functions + [FunctionState([], false, 0)]);
    (ps.(st := s2, prog := ps.prog.(functions := ps.prog.functions + [FunctionDef(cell, [])])), |ps.st.functions|)
  }

  /** new While(...) or new For(...): both flags false. */
  function NewLoop(ps: Parse): (r: (Parse, LoopId))
    ensures r.1 == |ps.st.loops| && r.0.st.loops == ps.st.loops + [LoopFlags(false, false)]
    ensures r.0.st.cells == ps.st.cells && r.0.st.functions == ps.st.functions && r.0.prog == ps.prog
  {
    (ps.(st := ps.st.(loops := ps.st.loops + [LoopFlags(false, false)])), |ps.st.loops|)
  }

  /** A new object in the store. */
  function NewObject(ps: Parse, v: Value): (r: (Parse, Ref))
    ensures r.1 == |ps.st.cells| && |r.0.st.cells| == |ps.st.cells| + 1 && Read(r.0.st, r.1) == v
    ensures r.0.prog == ps.prog && r.0.variables == ps.variables && r.0.functionIds == ps.functionIds
    ensures r.0.st.functions == ps.st.functions && r.0.st.loops == ps.st.loops
  {
    var (s1, c) := NewCell(ps.st, v);
    (ps.(st := s1), c)
  }

  /** `Append(Operable?)`: a new OperableClone whose source is the object. */
  function NewProxyOf(ps: Parse, source: Ref): (r: (Parse, Ref))
    ensures r.1 == |ps.st.cells| && |r.0.st.cells| == |ps.st.cells| + 1 && Source(r.0.st, r.1) == Some(source)
    ensures r.0.prog == ps.prog && r.0.variables == ps.variables && r.0.functionIds == ps.functionIds
    ensures r.0.st.functions == ps.st.functions && r.0.st.loops == ps.st.loops
  {
    var (s1, p) := NewProxy(ps.st, Some(source));
    (ps.(st := s1), p)
  }

  /** Container.Executables.Add: the node goes to the Script's list, to a Function's list, or
      to the list being built. */
  function Emit(ps: Parse, sink: Sink, local: seq<Node>, n: Node): (r: (Parse, seq<Node>))
    ensures sink.StatementSink? ==> r == (ps, local + [n])
    ensures sink.ScriptSink? ==> r == (ps.(prog := ps.prog.(body := ps.prog.body + [n])), local)
    ensures sink.FunctionSink? && sink.f < |ps.prog.functions| ==>
              r.1 == local && r.0 == ps.(prog := ps.prog.(functions := ps.prog.functions[sink.f :=
                ps.prog.functions[sink.f].(body := ps.prog.functions[sink.f].body + [n])]))
  {
    match sink
    case StatementSink => (ps, local + [n])
    case ScriptSink => (ps.(prog := ps.prog.(body := ps.prog.body + [n])), local)
    case FunctionSink(f) =>
      if f < |ps.prog.functions| then
        var def := ps.prog.functions[f];
        (ps.(prog := ps.prog.(functions := ps.prog.functions[f := def.(body := def.body + [n])])), local)
      else (ps, local)
  }

  // ------------------------------------------------------------------ ProcessVariable

  /** ProcessVariable: a global variable, else a function's own object, else the parameter
      of the enclosing function (a missing one fails the lookup), else a new global variable
      holding Integer 0. */
  function ProcessVariable(ps: Parse, name: string, parent: Option<FunctionId>): (r: Result<(Parse, Ref)>)
    ensures name in ps.variables ==> r == Ok((ps, ps.variables[name]))
    ensures name !in ps.variables && name in ps.functionIds ==>
              r == Ok((ps, DefOf(ps.prog, ps.functionIds[name]).cell))
    ensures name !in ps.variables && name !in ps.functionIds && parent.Some? ==>
              (r.Ok? <==> GetArgOperable(ps.st, parent.value, name).Ok?) &&
              (r.Ok? ==> r.value == (ps, GetArgOperable(ps.st, parent.value, name).value)) &&
              (r.Err? ==> r.error == KeyNotFound(name))
    ensures name !in ps.variables && name !in ps.functionIds && parent.None? ==>
              r.Ok? && r.value.1 == |ps.st.cells| && Read(r.value.0.st, r.value.1) == NewOperable(Integer)
              && r.value.0.variables == ps.variables[name := |ps.st.cells|]
    ensures r.Ok? ==> r.value.0.prog == ps.prog && r.value.0.functionIds == ps.functionIds
    ensures r.Ok? ==> r.value.0.st.functions == ps.st.functions && r.value.0.st.loops == ps.st.loops
    ensures r.Ok? ==> |ps.st.cells| <= |r.value.0.st.cells|
  {
    if name in ps.variables then Ok((ps, ps.variables[name]))
    else if name in ps.functionIds then Ok((ps, DefOf(ps.prog, ps.functionIds[name]).cell))
    else if parent.Some? then
      var p :- GetArgOperable(ps.st, parent.value, name);
      Ok((ps, p))
    else
      var (ps1, c) := NewObject(ps, NewOperable(Integer));
      Ok((ps1.(variables := ps1.variables[name := c]), c))
  }

  // ------------------------------------------------------------------ CollectInternalTokens

  /** The change of brace depth a token makes. */
  function BraceStep(e: Entity): int {
    if e.Type() == BeginBlock then 1 else if e.Type() == EndBlock then -1 else 0
  }

  /** The loop of CollectInternalTokens from token i on, `depth` braces open: the position of
      the `}` that closes the first one. */
  function CloseFrom(tokens: seq<Entity>, i: nat, depth: int): (r: Result<nat>)
    requires depth > 0
    ensures r.Ok? ==> i <= r.value < |tokens| && tokens[r.value].Type() == EndBlock
    ensures r.Err? ==> r.error == ArgumentOutOfRange
    decreases |tokens| - i
  {
    if i >= |tokens| then Err(ArgumentOutOfRange)
    else
      var d := depth + BraceStep(tokens[i]);
      if d == 0 then Ok(i) else CloseFrom(tokens, i + 1, d)
  }

  /** CollectInternalTokens: the token at index must be `{`; the result is the list of tokens
      strictly between it and its matching `}`, and the position of that `}`. */
  function Collect(tokens: seq<Entity>, index: nat): (r: Result<(seq<Entity>, nat)>)
    ensures index < |tokens| && tokens[index].Type() != BeginBlock ==> r == Err(UnexpectedToken)
    ensures r.Ok? ==> index < r.value.1 < |tokens| && r.value.0 == tokens[index + 1..r.value.1]
    ensures r.Ok? ==> tokens[index].Type() == BeginBlock && tokens[r.value.1].Type() == EndBlock
    ensures r.Err? ==> r.error == UnexpectedToken || r.error == ArgumentOutOfRange
    ensures (index + 1 < |tokens| && tokens[index].Type() == BeginBlock && tokens[index + 1].Type() == EndBlock)
            ==> r == Ok(([], index + 1))
  {
    if index >= |tokens| then Err(ArgumentOutOfRange)
    else if tokens[index].Type() != BeginBlock then Err(UnexpectedToken)
    else
      var j :- CloseFrom(tokens, index + 1, 1);
      assert index + 1 < |tokens| && tokens[index + 1].Type() == EndBlock ==> j == index + 1 && tokens[index + 1..j] == [];
      Ok((tokens[index + 1..j], j))
  }

  // ------------------------------------------------------------------ ProcessExpression

  /** The tokens that end an expression. */
  predicate IsStop(e: Entity) {
    e.Type() in {Semicolon, BeginBlock, Comma}
  }

  /** ProcessExpression from index: a new Expression, filled by ExpressionFrom. */
  function ProcessExpression(ps: Parse, parent: Option<FunctionId>, tokens: seq<Entity>, index: nat)
    : (r: Result<(Parse, Expr, nat)>)
    requires index <= |tokens|
    ensures r.Ok? ==> index <= r.value.2 <= |tokens|
    ensures r.Ok? ==> r.value.2 == |tokens| || IsStop(tokens[r.value.2])
    ensures r.Ok? ==> r.value.1.cell == |ps.st.cells|
    ensures r.Ok? ==> r.value.0.prog == ps.prog
    decreases |tokens|, |tokens| - index, 2
  {
    var (ps1, cell) := NewObject(ps, NewOperable(Integer));
    ExpressionFrom(ps1, parent, tokens, index, Expr(cell, []))
  }

  /** The loop of ProcessExpression from index on, with the expression built so far: an
      identifier followed by `(` is a call of a declared function, any other identifier a
      proxy of what ProcessVariable resolves, a literal or symbol the token itself. */
  function ExpressionFrom(ps: Parse, parent: Option<FunctionId>, tokens: seq<Entity>, index: nat, e: Expr)
    : (r: Result<(Parse, Expr, nat)>)
    requires index <= |tokens|
    ensures r.Ok? ==> index <= r.value.2 <= |tokens|
    ensures r.Ok? ==> r.value.2 == |tokens| || IsStop(tokens[r.value.2])
    ensures r.Ok? ==> r.value.1.cell == e.cell
    ensures r.Ok? ==> r.value.0.prog == ps.prog
    ensures (index + 1 < |tokens| && tokens[index].Word? && tokens[index + 1].Type() == LParen
             && tokens[index].content !in ps.functionIds)
            ==> r == Err(FunctionNotDefined(tokens[index].content))
    decreases |tokens|, |tokens| - index, 1
  {
    if index == |tokens| || IsStop(tokens[index]) then Ok((ps, e, index))
    else
      match tokens[index]
      case Word(name) =>
        if index + 1 < |tokens| && tokens[index + 1].Type() == LParen then
          if name !in ps.functionIds then Err(FunctionNotDefined(name))
          else
            var f := ps.functionIds[name];
            var (ps1, result) := NewObject(ps, NewOperable(Integer));
            var call :- CallFrom(ps1, parent, f, tokens, index + 2, 1, index + 2, Syntax.Call(Some(f), result, []));
            ExpressionFrom(call.0, parent, tokens, call.2, e.(tokens := e.tokens + [CallToken(call.1)]))
        else
          var v :- ProcessVariable(ps, name, parent);
          var (ps2, p) := NewProxyOf(v.0, v.1);
          ExpressionFrom(ps2, parent, tokens, index + 1, e.(tokens := e.tokens + [ProxyToken(p)]))
      case Literal(o) =>
        var (ps1, c) := NewObject(ps, ConstNew(o));
        ExpressionFrom(ps1, parent, tokens, index + 1, e.(tokens := e.tokens + [ConstToken(c, o)]))
      case Token(t) =>
        ExpressionFrom(ps, parent, tokens, index + 1, e.(tokens := e.tokens + [SymbolToken(t)]))
  }

  // ------------------------------------------------------------------ ProcessFunctionCall

  /** The loop of ProcessFunctionCall from token i on, `depth` parentheses open and the
      current argument's tokens starting at `start`: a comma at depth 1 or the closing `)`
      ends an argument. The result is the call and the position after its `)`. */
  function CallFrom(ps: Parse, parent: Option<FunctionId>, f: FunctionId, tokens: seq<Entity>,
                    i: nat, depth: int, start: nat, c: Call): (r: Result<(Parse, Call, nat)>)
    requires start <= i <= |tokens| && depth >= 1
    ensures r.Ok? ==> i < r.value.2 <= |tokens|
    ensures r.Ok? ==> r.value.1.callee == c.callee && r.value.1.result == c.result
    ensures r.Ok? ==> r.value.0.prog == ps.prog
    ensures r.Err? && i == |tokens| ==> r.error == ArgumentOutOfRange
    ensures r.Ok? ==> CallEnd(tokens, i, depth) == Some(r.value.2)
    decreases |tokens|, |tokens| - i, 0
  {
    if i == |tokens| then Err(ArgumentOutOfRange)
    else
      var t := tokens[i].Type();
      if t == Comma && depth == 1 then
        var a :- ArgumentOf(ps, parent, f, tokens[start..i], c);
        CallFrom(a.0, parent, f, tokens, i + 1, depth, i + 1, a.1)
      else if t == RParen && depth == 1 then
        var a :- ArgumentOf(ps, parent, f, tokens[start..i], c);
        Ok((a.0, a.1, i + 1))
      else
        var d := if t == LParen then depth + 1 else if t == RParen then depth - 1 else depth;
        CallFrom(ps, parent, f, tokens, i + 1, d, start, c)
  }

  /** Where the `)` that closes a call is, scanning from token i with `depth` parentheses
      open: the position just after it, if the list has one. */
  function CallEnd(tokens: seq<Entity>, i: nat, depth: int): Option<nat>
    requires i <= |tokens|
    decreases |tokens| - i
  {
    if i == |tokens| then Option.None
    else
      var t := tokens[i].Type();
      if t == RParen && depth == 1 then Some(i + 1)
      else
        var d := if t == LParen then depth + 1 else if t == RParen then depth - 1 else depth;
        CallEnd(tokens, i + 1, d)
  }

  /** ProcessInternalExpression: an argument of several tokens is an Expression resolved in
      the callee's scope; a lone identifier passes the global variable itself or else the
      caller's parameter proxy; a lone literal passes itself; anything else adds nothing. */
  function ArgumentOf(ps: Parse, parent: Option<FunctionId>, f: FunctionId, buffer: seq<Entity>, c: Call)
    : (r: Result<(Parse, Call)>)
    ensures |buffer| == 0 ==> r == Ok((ps, c))
    ensures |buffer| == 1 && buffer[0].Token? ==> r == Ok((ps, c))
    ensures |buffer| == 1 && buffer[0].Word? && buffer[0].content in ps.variables ==>
              r == Ok((ps, c.(arguments := c.arguments + [VariableArgument(ps.variables[buffer[0].content])])))
    ensures |buffer| == 1 && buffer[0].Word? && buffer[0].content !in ps.variables && parent.None? ==>
              r == Err(UnexpectedArgument(buffer[0].content))
    ensures r.Ok? ==> r.value.1.callee == c.callee && r.value.1.result == c.result
    ensures r.Ok? ==> |r.value.1.arguments| <= |c.arguments| + 1
    ensures r.Ok? ==> r.value.0.prog == ps.prog
    decreases |buffer|, |buffer| + 1, 3
  {
    if |buffer| > 1 then
      var x :- ProcessExpression(ps, Some(f), buffer, 0);
      Ok((x.0, c.(arguments := c.arguments + [ExpressionArgument(x.1)])))
    else if |buffer| == 1 then
      match buffer[0]
      case Word(name) =>
        if name in ps.variables then Ok((ps, c.(arguments := c.arguments + [VariableArgument(ps.variables[name])])))
        else if parent.Some? then
          var p :- GetArgOperable(ps.st, parent.value, name);
          Ok((ps, c.(arguments := c.arguments + [ProxyArgument(p)])))
        else Err(UnexpectedArgument(name))
      case Literal(o) =>
        var (ps1, x) := NewObject(ps, ConstNew(o));
        Ok((ps1, c.(arguments := c.arguments + [ConstArgument(x, o)])))
      case Token(_) => Ok((ps, c))
    else Ok((ps, c))
  }

  // ------------------------------------------------------------------ ProcessContainer

  /** The statement kinds ProcessContainer has a case for. */
  predicate StartsStatement(t: EntityType) {
    t in {Undefined, Def, Imp, EntityType.If, EntityType.While, EntityType.For, Return, Break, Continue}
  }

  /** The for loop of ProcessContainer from token index on, with the statements made so far
      for a statement container: one case per turn, then the token after the position the
      case stopped at. */
  function ContainerFrom(ps: Parse, tokens: seq<Entity>, index: nat, ctx: Context, local: seq<Node>)
    : (r: Result<(Parse, seq<Node>)>)
    requires index <= |tokens| + 1
    decreases |tokens|, |tokens| + 1 - index, 3
  {
    if index >= |tokens| then Ok((ps, local))
    else
      var s :- StatementAt(ps, tokens, index, ctx, local);
      ContainerFrom(s.0, tokens, s.2 + 1, ctx, s.1)
  }

  /** The switch of ProcessContainer on the token at index: the new state, the statements of
      a statement container, and the position of the last token the case read. */
  function StatementAt(ps: Parse, tokens: seq<Entity>, index: nat, ctx: Context, local: seq<Node>)
    : (r: Result<(Parse, seq<Node>, nat)>)
    requires index < |tokens|
    ensures r.Ok? ==> index <= r.value.2 <= |tokens|
    ensures !StartsStatement(tokens[index].Type()) ==> r == Ok((ps, local, index))
    decreases |tokens|, |tokens| + 1 - index, 2
  {
    var t := tokens[index].Type();
    if t == Undefined then
      var x :- ProcessExpression(ps, ScopeOf(ctx.returnable), tokens, index);
      var (ps1, local1) := Emit(x.0, ctx.sink, local, ExpressionNode(x.1));
      Ok((ps1, local1, x.2))
    else if t == Def then
      var d :- Define(ps, tokens, index);
      Ok((d.0, local, d.1))
    else if t == Imp then Implement(ps, tokens, index, ctx, local)
    else if t == EntityType.If || t == EntityType.While then Conditional(ps, tokens, index, ctx, local)
    else if t == EntityType.For then ForLoop(ps, tokens, index, ctx, local)
    else if t == Return then
      var (ps1, local1) := Emit(ps, ctx.sink, local, ReturnNode(ctx.returnable));
      Ok((ps1, local1, index))
    else if t == Break then
      var (ps1, local1) := Emit(ps, ctx.sink, local, BreakNode(ctx.loop));
      Ok((ps1, local1, index))
    else if t == Continue then
      var (ps1, local1) := Emit(ps, ctx.sink, local, ContinueNode(ctx.loop));
      Ok((ps1, local1, index))
    else Ok((ps, local, index))
  }

  /** The IMP case: the named function must be declared; its body block is processed with
      the function as container and returnable and no loop. */
  function Implement(ps: Parse, tokens: seq<Entity>, index: nat, ctx: Context, local: seq<Node>)
    : (r: Result<(Parse, seq<Node>, nat)>)
    requires index < |tokens|
    ensures r.Ok? ==> index < r.value.2 < |tokens| && r.value.1 == local
    ensures (index + 1 < |tokens| && tokens[index + 1].Word? && tokens[index + 1].content !in ps.functionIds)
            ==> r == Err(KeyNotFound(tokens[index + 1].content))
    ensures index + 1 < |tokens| && !tokens[index + 1].Word? ==> r == Err(NullKey)
    decreases |tokens|, |tokens| + 1 - index, 0
  {
    if index + 1 >= |tokens| then Err(ArgumentOutOfRange)
    else
      var name := ContentOf(tokens[index + 1]);
      if name.None? then Err(NullKey)
      else if name.value !in ps.functionIds then Err(KeyNotFound(name.value))
      else
        var f := ps.functionIds[name.value];
        var body :- Collect(tokens, index + 2);
        var inner :- ContainerFrom(ps, body.0, 0, Context(FunctionSink(f), Some(f), FunctionReturnable(f), Option.None), []);
        Ok((inner.0, local, body.1))
  }

  /** The IF and WHILE cases: the condition up to the `{`, then the block, processed with the
      same targets (IF) or with the new loop as the loop target (WHILE). */
  function Conditional(ps: Parse, tokens: seq<Entity>, index: nat, ctx: Context, local: seq<Node>)
    : (r: Result<(Parse, seq<Node>, nat)>)
    requires index < |tokens|
    ensures r.Ok? ==> index < r.value.2 < |tokens|
    decreases |tokens|, |tokens| + 1 - index, 0
  {
    var x :- ProcessExpression(ps, ScopeOf(ctx.returnable), tokens, index + 1);
    var body :- Collect(tokens, x.2);
    if tokens[index].Type() == EntityType.If then
      var inner :- ContainerFrom(x.0, body.0, 0, ctx.(sink := StatementSink, containerFunction := Option.None), []);
      var (ps1, local1) := Emit(inner.0, ctx.sink, local, IfNode(x.1, inner.1));
      Ok((ps1, local1, body.1))
    else
      var (ps1, id) := NewLoop(x.0);
      var inner :- ContainerFrom(ps1, body.0, 0, Context(StatementSink, Option.None, ctx.returnable, Some(id)), []);
      var (ps2, local1) := Emit(inner.0, ctx.sink, local, WhileNode(id, x.1, inner.1));
      Ok((ps2, local1, body.1))
  }

  /** The FOR case: the loop variables up to IN, then the rest of the statement. */
  function ForLoop(ps: Parse, tokens: seq<Entity>, index: nat, ctx: Context, local: seq<Node>)
    : (r: Result<(Parse, seq<Node>, nat)>)
    requires index < |tokens|
    ensures r.Ok? ==> index < r.value.2 < |tokens|
    decreases |tokens|, |tokens| + 1 - index, 1
  {
    var v :- ForVariables(ps, tokens, index + 1, ctx.containerFunction, []);
    ForRest(v.0, tokens, index, v.2, v.1, ctx, local)
  }

  /** The FOR case after IN, which is at `at`: the collection expression up to the `{`, then
      the block with the new loop as the loop target. */
  function ForRest(ps: Parse, tokens: seq<Entity>, index: nat, at: nat, variables: seq<Ref>, ctx: Context, local: seq<Node>)
    : (r: Result<(Parse, seq<Node>, nat)>)
    requires index < at < |tokens|
    ensures r.Ok? ==> at < r.value.2 < |tokens|
    decreases |tokens|, |tokens| + 1 - index, 0
  {
    var x :- ProcessExpression(ps, ScopeOf(ctx.returnable), tokens, at + 1);
    var body :- Collect(tokens, x.2);
    var (ps1, id) := NewLoop(x.0);
    var inner :- ContainerFrom(ps1, body.0, 0, Context(StatementSink, Option.None, ctx.returnable, Some(id)), []);
    var (ps2, local1) := Emit(inner.0, ctx.sink, local, ForNode(id, variables, x.1, inner.1));
    Ok((ps2, local1, body.1))
  }

  /** The DEF case: a new Function, its parameters up to the `;`, then its name registered.
      The result is the position of the `;`. */
  function Define(ps: Parse, tokens: seq<Entity>, index: nat): (r: Result<(Parse, nat)>)
    requires index < |tokens|
    ensures r.Ok? ==> index + 2 <= r.value.1 < |tokens| && tokens[r.value.1].Type() == Semicolon
    ensures r.Ok? ==> r.value.0.prog == ps.prog.(functions := ps.prog.functions + [FunctionDef(|ps.st.cells|, [])])
    ensures r.Ok? ==> r.value.0.variables == ps.variables
    ensures r.Ok? ==> tokens[index + 1].Word? && tokens[index + 1].content !in ps.functionIds
    ensures r.Ok? ==> r.value.0.functionIds == ps.functionIds[tokens[index + 1].content := |ps.st.functions|]
  {
    if index + 2 >= |tokens| then Err(ArgumentOutOfRange)
    else
      var (ps1, f) := NewFunction(ps);
      var name := ContentOf(tokens[index + 1]);
      var p :- Parameters(ps1, f, tokens, index + 2);
      if name.None? then Err(NullKey)
      else if name.value in p.0.functionIds then Err(DuplicateKey(name.value))
      else Ok((p.0.(functionIds := p.0.functionIds[name.value := f]), p.1))
  }

  /** The parameter loop of DEF from token k on: `&` marks the next name as by-reference;
      every other token is taken as a name, and one that is no identifier is a null key. */
  function Parameters(ps: Parse, f: FunctionId, tokens: seq<Entity>, k: nat): (r: Result<(Parse, nat)>)
    requires k < |tokens|
    ensures r.Ok? ==> k <= r.value.1 < |tokens| && tokens[r.value.1].Type() == Semicolon
    ensures r.Ok? ==> r.value.0.prog == ps.prog && r.value.0.variables == ps.variables
    ensures r.Ok? ==> r.value.0.functionIds == ps.functionIds && |r.value.0.st.functions| == |ps.st.functions|
    decreases |tokens| - k
  {
    var t := tokens[k].Type();
    if t == Semicolon then Ok((ps, k))
    else if t == Ref then
      if k + 1 >= |tokens| then Err(ArgumentOutOfRange)
      else
        var s1 :- AppendArg(ps.st, f, ContentOf(tokens[k + 1]), true);
        if k + 2 >= |tokens| then Err(ArgumentOutOfRange)
        else Parameters(ps.(st := s1), f, tokens, k + 2)
    else
      var s1 :- AppendArg(ps.st, f, ContentOf(tokens[k]), false);
      if k + 1 >= |tokens| then Err(ArgumentOutOfRange)
      else Parameters(ps.(st := s1), f, tokens, k + 1)
  }

  /** The variable loop of FOR from token k on, up to IN: each identifier is resolved by
      ProcessVariable in the container's scope; other tokens are passed over. The result
      holds the variables and the position of IN. */
  function ForVariables(ps: Parse, tokens: seq<Entity>, k: nat, scope: Option<FunctionId>, vars: seq<Ref>)
    : (r: Result<(Parse, seq<Ref>, nat)>)
    ensures r.Ok? ==> k <= r.value.2 < |tokens| && tokens[r.value.2].Type() == In
    ensures r.Ok? ==> r.value.0.prog == ps.prog && r.value.0.functionIds == ps.functionIds
    ensures r.Ok? ==> r.value.0.st.functions == ps.st.functions && r.value.0.st.loops == ps.st.loops
    decreases |tokens| - k
  {
    if k >= |tokens| then Err(ArgumentOutOfRange)
    else if tokens[k].Type() == In then Ok((ps, vars, k))
    else
      match tokens[k]
      case Word(name) =>
        var v :- ProcessVariable(ps, name, scope);
        ForVariables(v.0, tokens, k + 1, scope, vars + [v.1])
      case _ => ForVariables(ps, tokens, k + 1, scope, vars)
  }

  // ------------------------------------------------------------------ LoadFromSource

  /** ProcessContainer(tokens, this, this): the Script is the container and the returnable,
      and there is no loop. */
  function TopContext(): Context {
    Context(ScriptSink, Option.None, ScriptReturnable, Option.None)
  }

  /** ProcessContainer on a whole token list. */
  function ProcessContainer(ps: Parse, tokens: seq<Entity>, ctx: Context): Result<(Parse, seq<Node>)> {
    ContainerFrom(ps, tokens, 0, ctx, [])
  }

  /** LoadFromSource: tokenize, then process the token list into the Script. */
  function LoadFromSource(ps: Parse, fm: FloatModel, source: string): Result<Parse> {
    var tokens :- Lexer.Lex(fm, source);
    var r :- ProcessContainer(ps, tokens, TopContext());
    Ok(r.0)
  }
}
