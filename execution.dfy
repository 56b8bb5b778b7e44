/** What executing the tree does to the store: Expression.Execute (reset, shunting-yard
    conversion, postfix evaluation), FunctionCall.Execute, Function.Execute, the While, For
    and If nodes, BREAK, CONTINUE and RETURN, Statement.Reset and Script.Execute.

    Every function reads the store when the source reads an object, so aliasing behaves as it
    does in the interpreter: a recursive call that re-executes an expression overwrites the
    very proxies and results its caller is still using. A thrown exception is an `Err` and
    ends the whole run. `fuel` bounds the depth of function calls and the number of WHILE
    re-tests; running out of it is the error OutOfFuel. */
module Execution {
  import opened Wrappers
  import opened Numerics
  import opened Entities
  import opened Operables
  import opened Store
  import opened Syntax
  import Lexer

  /** An entry of the conversion's token stack and output queue, or of the value stack: an
      Operable object (a literal, a proxy, a call's result) or a bare Entity. */
  datatype Item = CellItem(cell: Ref) | SymbolItem(tokenType: EntityType)

  /** A body run by a container: the state after it, and whether the container's flag
      stopped it before its last statement. */
  datatype Outcome = Outcome(state: State, stopped: bool)

  /** The store grows and the tables of functions and loops keep their size. */
  predicate Extends(st: State, after: State) {
    |st.cells| <= |after.cells| && |after.functions| == |st.functions| && |after.loops| == |st.loops|
  }

  // ------------------------------------------------------------------ tags and precedence

  /** Entity.Type of an item: an Operable's tag as it is now. */
  function TypeOf(st: State, it: Item): EntityType {
    match it
    case CellItem(c) => Read(st, c).valueType
    case SymbolItem(t) => t
  }

  /** Entity.Type of an expression token. */
  function TokenType(st: State, tok: Token): EntityType {
    match tok
    case ConstToken(c, _) => Read(st, c).valueType
    case ProxyToken(c) => Read(st, c).valueType
    case SymbolToken(t) => t
    case CallToken(_) => EntityType.Call
  }

  /** The entity a token is when it is enqueued or stacked as it is. */
  function TokenItem(tok: Token): Item {
    match tok
    case ConstToken(c, _) => CellItem(c)
    case ProxyToken(c) => CellItem(c)
    case SymbolToken(t) => SymbolItem(t)
    case CallToken(call) => CellItem(call.result)
  }

  /** Expression.Precedence. */
  function Precedence(t: EntityType): (p: int)
    ensures p == 1 <==> t in {And, Or}
    ensures p == 2 <==> t in {EqualEqual, GEqual, LEqual, Greater, Less}
    ensures p == 3 <==> t in {Plus, Minus}
    ensures p == 4 <==> t in {Mul, Div, Percent}
    ensures 0 <= p <= 4
  {
    match t
    case And => 1
    case Or => 1
    case EqualEqual => 2
    case GEqual => 2
    case LEqual => 2
    case Greater => 2
    case Less => 2
    case Plus => 3
    case Minus => 3
    case Mul => 4
    case Div => 4
    case Percent => 4
    case _ => 0
  }

  // ------------------------------------------------------------------ Expression.Reset

  /** Expression.Reset from token i on: each literal regains its origin and each proxy
      re-reads its source; calls and bare entities are left alone. */
  function ResetTokens(st: State, tokens: seq<Token>, i: nat): (after: State)
    requires i <= |tokens|
    ensures |after.cells| == |st.cells| && SameControl(after, st)
    ensures forall y: Ref :: Unreset(tokens, i, y) ==> Read(after, y) == Read(st, y)
    ensures ResetsApart(tokens, i) ==>
              forall k :: i <= k < |tokens| && tokens[k].ConstToken? && tokens[k].cell < |st.cells| ==>
                Read(after, tokens[k].cell) == ConstReset(Read(st, tokens[k].cell), tokens[k].origin)
    ensures ResetsApart(tokens, i) ==>
              forall k :: i <= k < |tokens| && tokens[k].ProxyToken? && tokens[k].cell < |st.cells|
                          && Source(st, tokens[k].cell).Some? && Unreset(tokens, i, Source(st, tokens[k].cell).value) ==>
                Read(after, tokens[k].cell) == Copy(Read(st, Source(st, tokens[k].cell).value))
    decreases |tokens| - i
  {
    if i == |tokens| then st
    else
      assert ResetsApart(tokens, i) ==>
               ResetsApart(tokens, i + 1) && forall y: Ref :: Resets(tokens[i], y) ==> Unreset(tokens, i + 1, y);
      ResetTokens(ResetToken(st, tokens[i]), tokens, i + 1)
  }

  /** The reset of one token: a literal regains its origin, a proxy re-reads its source. */
  function ResetToken(st: State, tok: Token): (after: State)
    ensures |after.cells| == |st.cells| && SameControl(after, st)
    ensures forall y: Ref :: !Resets(tok, y) ==> Read(after, y) == Read(st, y)
    ensures tok.ConstToken? && tok.cell < |st.cells| ==> Read(after, tok.cell) == ConstReset(Read(st, tok.cell), tok.origin)
    ensures tok.ProxyToken? && tok.cell < |st.cells| && Source(st, tok.cell).Some? && Source(st, tok.cell).value != tok.cell ==>
              Read(after, tok.cell) == Copy(Read(st, Source(st, tok.cell).value))
  {
    match tok
    case ConstToken(c, o) => ResetConst(st, c, o)
    case ProxyToken(p) => ResetProxy(st, p)
    case _ => st
  }

  /** Whether resetting the token may write the cell y. */
  predicate Resets(tok: Token, y: Ref) {
    match tok
    case ConstToken(c, _) => c == y
    case ProxyToken(p) => p == y
    case _ => false
  }

  /** No token from i on resets the cell y. */
  predicate Unreset(tokens: seq<Token>, i: nat, y: Ref) {
    forall k :: i <= k < |tokens| ==> !Resets(tokens[k], y)
  }

  /** No two tokens from i on reset the same cell, as the parser's fresh literals and proxies
      guarantee. */
  ghost predicate ResetsApart(tokens: seq<Token>, i: nat) {
    forall j, k, y: Ref :: i <= j < k < |tokens| && Resets(tokens[j], y) ==> !Resets(tokens[k], y)
  }

  // ------------------------------------------------------------------ shunting-yard

  /** The inner while of an incoming operator t: every stacked operator of at least its
      precedence moves to the queue, top first. The stack's top is its last entry. */
  function PopHigher(st: State, t: EntityType, stack: seq<Item>, queue: seq<Item>): (r: (seq<Item>, seq<Item>))
    ensures |r.0| <= |stack| && r.0 == stack[..|r.0|]
    ensures r.1 == queue + Reversed(stack[|r.0|..])
    ensures |r.0| > 0 ==> !(Lexer.IsOperator(TypeOf(st, r.0[|r.0| - 1])) &&
                            Precedence(t) <= Precedence(TypeOf(st, r.0[|r.0| - 1])))
    decreases |stack|
  {
    if |stack| > 0 && Lexer.IsOperator(TypeOf(st, stack[|stack| - 1]))
       && Precedence(t) <= Precedence(TypeOf(st, stack[|stack| - 1]))
    then
      var r := PopHigher(st, t, stack[..|stack| - 1], queue + [stack[|stack| - 1]]);
      PopOne(stack, queue, r.0, r.1);
      r
    else (stack, queue)
  }

  /** Moving the top entry to the queue, then popping the rest of the prefix. */
  lemma PopOne(stack: seq<Item>, queue: seq<Item>, rest: seq<Item>, out: seq<Item>)
    requires |stack| > 0
    requires |rest| <= |stack| - 1 && rest == stack[..|stack| - 1][..|rest|]
    requires out == queue + [stack[|stack| - 1]] + Reversed(stack[..|stack| - 1][|rest|..])
    ensures |rest| <= |stack| && rest == stack[..|rest|]
    ensures out == queue + Reversed(stack[|rest|..])
  {
    var init := stack[..|stack| - 1][|rest|..];
    assert stack[|rest|..] == init + [stack[|stack| - 1]];
    ReversedSnoc(init, stack[|stack| - 1]);
  }

  /** A sequence backwards: the order in which popped entries reach the queue. */
  function Reversed(s: seq<Item>): (r: seq<Item>)
    ensures |r| == |s|
    ensures forall k :: 0 <= k < |s| ==> r[k] == s[|s| - 1 - k]
  {
    if |s| == 0 then [] else [s[|s| - 1]] + Reversed(s[..|s| - 1])
  }

  /** The position of the topmost `(` on the stack, if there is one. */
  function TopParen(st: State, stack: seq<Item>): (r: Option<nat>)
    ensures r.None? <==> forall k :: 0 <= k < |stack| ==> TypeOf(st, stack[k]) != LParen
    ensures r.Some? ==> r.value < |stack| && TypeOf(st, stack[r.value]) == LParen
                        && forall k :: r.value < k < |stack| ==> TypeOf(st, stack[k]) != LParen
  {
    if |stack| == 0 then Option.None
    else if TypeOf(st, stack[|stack| - 1]) == LParen then Some(|stack| - 1)
    else TopParen(st, stack[..|stack| - 1])
  }

  /** The handling of `)`: pop to the queue down to the topmost `(`, which is discarded; with
      none on the stack, "Mismatched parentheses". */
  function PopToParen(st: State, stack: seq<Item>, queue: seq<Item>): (r: Result<(seq<Item>, seq<Item>)>)
    ensures TopParen(st, stack).None? ==> r == Err(MismatchedParentheses)
    ensures TopParen(st, stack).Some? ==>
              var j := TopParen(st, stack).value;
              r == Ok((stack[..j], queue + Reversed(stack[j + 1..])))
    decreases |stack|
  {
    if |stack| == 0 then Err(MismatchedParentheses)
    else if TypeOf(st, stack[|stack| - 1]) == LParen then
      assert TopParen(st, stack) == Some(|stack| - 1);
      assert queue + Reversed(stack[|stack| - 1 + 1..]) == queue by {
        assert stack[|stack| - 1 + 1..] == [];
      }
      Ok((stack[..|stack| - 1], queue))
    else
      var init := stack[..|stack| - 1];
      var x := stack[|stack| - 1];
      var r := PopToParen(st, init, queue + [x]);
      assert TopParen(st, stack) == TopParen(st, init);
      if TopParen(st, stack).Some? then
        var j := TopParen(st, stack).value;
        assert init[..j] == stack[..j];
        assert stack[j + 1..] == init[j + 1..] + [x];
        ReversedSnoc(init[j + 1..], x);
        assert queue + Reversed(stack[j + 1..]) == (queue + [x]) + Reversed(init[j + 1..]);
        r
      else
        r
  }

  lemma ReversedSnoc(s: seq<Item>, x: Item)
    ensures Reversed(s + [x]) == [x] + Reversed(s)
  {
    assert (s + [x])[..|s|] == s;
  }

  /** After the last token: pop everything to the queue; a parenthesis left on the stack is
      "Mismatched parentheses". */
  function Drain(st: State, stack: seq<Item>, queue: seq<Item>): (r: Result<seq<Item>>)
    ensures r.Ok? <==> forall k :: 0 <= k < |stack| ==> TypeOf(st, stack[k]) !in {LParen, RParen}
    ensures r.Ok? ==> r.value == queue + Reversed(stack)
    ensures r.Err? ==> r.error == MismatchedParentheses
    decreases |stack|
  {
    if |stack| == 0 then Ok(queue)
    else if TypeOf(st, stack[|stack| - 1]) in {LParen, RParen} then Err(MismatchedParentheses)
    else
      var r := Drain(st, stack[..|stack| - 1], queue + [stack[|stack| - 1]]);
      assert forall k :: 0 <= k < |stack| - 1 ==> stack[..|stack| - 1][k] == stack[k];
      r
  }

  // ------------------------------------------------------------------ postfix evaluation

  /** The assignment operators, which write the left operand back through its proxy. */
  predicate IsAssignment(op: EntityType) {
    op in {EntityType.Equal, PlusEqual, MinusEqual, MulEqual, DivEqual}
  }

  /** The operators the evaluation's switch has a case for. */
  predicate HasCase(op: EntityType) {
    op in {EntityType.Plus, Minus, Mul, Percent, Div, PlusEqual, MinusEqual, MulEqual, DivEqual,
           EntityType.Equal, EqualEqual, Greater, Less, GEqual, LEqual, And, Or}
  }

  /** What a compound assignment does before it writes back. */
  function BaseOperator(op: EntityType): EntityType {
    match op
    case PlusEqual => Plus
    case MinusEqual => Minus
    case MulEqual => Mul
    case DivEqual => Div
    case _ => op
  }

  /** `((OperableClone) a).Apply()`: the cast fails unless a is a proxy. */
  function ApplyLeft(st: State, a: Ref): (r: Result<State>)
    ensures r.Ok? <==> a in st.sources
    ensures r.Ok? ==> r.value == ApplyProxy(st, a)
    ensures r.Err? ==> r.error == InvalidCast
  {
    if a in st.sources then Ok(ApplyProxy(st, a)) else Err(InvalidCast)
  }

  /** One operator case of the switch: a is mutated in place with b as its operand. */
  function ApplyOperator(fm: FloatModel, st: State, op: EntityType, a: Ref, b: Ref): (r: Result<State>)
    requires HasCase(op)
    ensures r.Ok? ==> |r.value.cells| == |st.cells| && SameControl(r.value, st)
    ensures !IsAssignment(op) && r.Ok? ==> forall y: Ref :: y != a ==> Read(r.value, y) == Read(st, y)
  {
    var x := Read(st, a);
    var y := Read(st, b);
    match BaseOperator(op)
    case Plus => WriteBackIf(op, st, Put(st, a, Add(fm, x, y)), a)
    case Minus => var v :- Arith(fm, Minus, x, y); WriteBackIf(op, st, Put(st, a, v), a)
    case Mul => var v :- Arith(fm, Mul, x, y); WriteBackIf(op, st, Put(st, a, v), a)
    case Div => var v :- Arith(fm, Div, x, y); WriteBackIf(op, st, Put(st, a, v), a)
    case Percent => var v :- Arith(fm, Percent, x, y); Ok(Put(st, a, v))
    case Equal => ApplyLeft(SetCell(st, a, b), a)
    case EqualEqual => Ok(Put(st, a, Operables.Equal(fm, x, y)))
    case Greater => Ok(Put(st, a, Order(fm, Greater, x, y)))
    case Less => Ok(Put(st, a, Order(fm, Less, x, y)))
    case GEqual => Ok(Put(st, a, Order(fm, GEqual, x, y)))
    case LEqual => Ok(Put(st, a, Order(fm, LEqual, x, y)))
    case And => Ok(Put(st, a, Operables.And(x, y)))
    case Or => Ok(Put(st, a, Operables.Or(x, y)))
  }

  /** The write-back of a compound assignment, after its arithmetic. */
  function WriteBackIf(op: EntityType, st: State, mutated: State, a: Ref): (r: Result<State>)
    requires |mutated.cells| == |st.cells| && SameControl(mutated, st)
    ensures r.Ok? ==> |r.value.cells| == |st.cells| && SameControl(r.value, st)
    ensures !IsAssignment(op) ==> r == Ok(mutated)
  {
    if IsAssignment(op) then ApplyLeft(mutated, a) else Ok(mutated)
  }

  /** The postfix loop from queue entry k on, with the value stack so far (top last). */
  function Postfix(fm: FloatModel, st: State, queue: seq<Item>, k: nat, values: seq<Item>): (r: Result<(State, seq<Item>)>)
    requires k <= |queue|
    ensures r.Ok? ==> |r.value.0.cells| == |st.cells| && SameControl(r.value.0, st)
    ensures k < |queue| && !TypeOf(st, queue[k]).IsValueType() && Lexer.IsOperator(TypeOf(st, queue[k])) ==>
              && (|values| == 0 || (|values| == 1 && values[0].CellItem?) ==> r == Err(StackEmpty))
              && (|values| > 0 && values[|values| - 1].SymbolItem? ==> r == Err(InvalidCast))
    decreases |queue| - k
  {
    if k == |queue| then Ok((st, values))
    else
      var t := TypeOf(st, queue[k]);
      if t.IsValueType() then Postfix(fm, st, queue, k + 1, values + [queue[k]])
      else if Lexer.IsOperator(t) then
        if |values| == 0 then Err(StackEmpty)
        else if !values[|values| - 1].CellItem? then Err(InvalidCast)
        else if |values| == 1 then Err(StackEmpty)
        else if !values[|values| - 2].CellItem? then Err(InvalidCast)
        else
          var a := values[|values| - 2];
          var b := values[|values| - 1];
          var rest := values[..|values| - 2];
          if HasCase(t) then
            var st1 :- ApplyOperator(fm, st, t, a.cell, b.cell);
            Postfix(fm, st1, queue, k + 1, rest + [a])
          else Postfix(fm, st, queue, k + 1, rest)
      else Postfix(fm, st, queue, k + 1, values)
  }

  /** The end of Execute: exactly one value must remain, and the expression takes it. */
  function Finish(st: State, cell: Ref, values: seq<Item>): (r: Result<State>)
    ensures r.Ok? <==> |values| == 1 && values[0].CellItem?
    ensures |values| != 1 ==> r == Err(InvalidExpression)
    ensures r.Ok? ==> r.value == SetCell(st, cell, values[0].cell)
  {
    if |values| != 1 then Err(InvalidExpression)
    else match values[0]
      case CellItem(x) => Ok(SetCell(st, cell, x))
      case SymbolItem(_) => Err(InvalidCast)
  }

  // ------------------------------------------------------------------ the executing cluster

  /** Expression.Execute. */
  function ExecExpr(fm: FloatModel, prog: Program, fuel: nat, st: State, e: Expr): (r: Result<State>)
    ensures r.Ok? ==> Extends(st, r.value)
    decreases fuel, e, 3, 0
  {
    var st1 := ResetTokens(st, e.tokens, 0);
    var cq :- Convert(fm, prog, fuel, st1, e, 0, [], []);
    var sv :- Postfix(fm, cq.0, cq.1, 0, []);
    Finish(sv.0, e.cell, sv.1)
  }

  /** The conversion loop of Execute from token i on, with the token stack and the queue so
      far. A call runs here, when its token is reached, and its result object is enqueued. */
  function Convert(fm: FloatModel, prog: Program, fuel: nat, st: State, e: Expr, i: nat,
                   stack: seq<Item>, queue: seq<Item>): (r: Result<(State, seq<Item>)>)
    requires i <= |e.tokens|
    ensures r.Ok? ==> Extends(st, r.value.0)
    decreases fuel, e, 2, |e.tokens| - i
  {
    if i == |e.tokens| then
      var q :- Drain(st, stack, queue);
      Ok((st, q))
    else
      var tok := e.tokens[i];
      var t := TokenType(st, tok);
      if t.IsValueType() then Convert(fm, prog, fuel, st, e, i + 1, stack, queue + [TokenItem(tok)])
      else if t == EntityType.Call then
        match tok
        case CallToken(c) =>
          var st1 :- ExecCall(fm, prog, fuel, st, c);
          Convert(fm, prog, fuel, st1, e, i + 1, stack, queue + [CellItem(c.result)])
        case _ => Err(InvalidCast)
      else if Lexer.IsOperator(t) then
        var sq := PopHigher(st, t, stack, queue);
        Convert(fm, prog, fuel, st, e, i + 1, sq.0 + [TokenItem(tok)], sq.1)
      else if t == LParen then Convert(fm, prog, fuel, st, e, i + 1, stack + [TokenItem(tok)], queue)
      else if t == RParen then
        var sq :- PopToParen(st, stack, queue);
        Convert(fm, prog, fuel, st, e, i + 1, sq.0, sq.1)
      else Convert(fm, prog, fuel, st, e, i + 1, stack, queue)
  }

  /** FunctionCall.Execute: with no target, nothing happens and the result object is
      returned as it is. Otherwise the arguments are prepared and bound in order, the count is
      recorded, the function runs and the result object takes the function's value. */
  function ExecCall(fm: FloatModel, prog: Program, fuel: nat, st: State, c: Call): (r: Result<State>)
    ensures c.callee.None? ==> r == Ok(st)
    ensures r.Ok? ==> Extends(st, r.value)
    ensures r.Ok? && c.callee.Some? && c.result < |st.cells| && c.result != DefOf(prog, c.callee.value).cell ==>
              Read(r.value, c.result) == Copy(Read(r.value, DefOf(prog, c.callee.value).cell))
    decreases fuel, c, 3, 0
  {
    match c.callee
    case None => Ok(st)
    case Some(f) =>
      var st1 :- BindArgs(fm, prog, fuel, st, c, f, 0);
      var st2 := UpdateFunction(st1, f, FunctionOf(st1, f).(involvedArgumentCount := |c.arguments|));
      if fuel == 0 then Err(OutOfFuel)
      else
        var st3 :- ExecFunction(fm, prog, fuel - 1, st2, f);
        Ok(SetCell(st3, c.result, DefOf(prog, f).cell))
  }

  /** The object an argument entry passes. */
  function ArgumentCell(a: Argument): Ref {
    match a
    case VariableArgument(x) => x
    case ConstArgument(x, _) => x
    case ProxyArgument(x) => x
    case ExpressionArgument(e) => e.cell
  }

  /** The loop over the call's arguments from j on: a literal or proxy is reset, an
      expression executed, a variable left as it is; then it is bound to parameter j. */
  function BindArgs(fm: FloatModel, prog: Program, fuel: nat, st: State, c: Call, f: FunctionId, j: nat): (r: Result<State>)
    requires j <= |c.arguments|
    ensures r.Ok? ==> Extends(st, r.value)
    decreases fuel, c, 2, |c.arguments| - j
  {
    if j == |c.arguments| then Ok(st)
    else
      var st1 :- match c.arguments[j]
        case VariableArgument(_) => Ok(st)
        case ConstArgument(x, o) => Ok(ResetConst(st, x, o))
        case ProxyArgument(p) => Ok(ResetProxy(st, p))
        case ExpressionArgument(e) => ExecExpr(fm, prog, fuel, st, e);
      var st2 :- SetArgValue(st1, f, j, ArgumentCell(c.arguments[j]));
      BindArgs(fm, prog, fuel, st2, c, f, j + 1)
  }

  /** Function.Execute: set the flag, run the body until the flag is cleared, and only when
      the body ran to its end copy each by-reference parameter back into its source. */
  function ExecFunction(fm: FloatModel, prog: Program, fuel: nat, st: State, f: FunctionId): (r: Result<State>)
    ensures r.Ok? ==> Extends(st, r.value)
    decreases fuel, DefOf(prog, f), 4, 0
  {
    var st1 := UpdateFunction(st, f, FunctionOf(st, f).(inProgress := true));
    var out :- FunctionBody(fm, prog, fuel, st1, f, DefOf(prog, f), 0);
    if out.stopped then Ok(out.state)
    else Ok(WriteBack(out.state, Arguments(out.state, f), 0))
  }

  /** The body loop of Function.Execute from statement i on. */
  function FunctionBody(fm: FloatModel, prog: Program, fuel: nat, st: State, f: FunctionId, def: FunctionDef, i: nat): (r: Result<Outcome>)
    requires i <= |def.body|
    ensures r.Ok? ==> Extends(st, r.value.state)
    decreases fuel, def, 1, |def.body| - i
  {
    if i == |def.body| then Ok(Outcome(st, false))
    else
      var st1 :- ExecNode(fm, prog, fuel, st, def.body[i]);
      if !FunctionOf(st1, f).inProgress then Ok(Outcome(st1, true))
      else FunctionBody(fm, prog, fuel, st1, f, def, i + 1)
  }

  /** The write-back loop of Function.Execute from parameter k on. */
  function WriteBack(st: State, args: seq<Param>, k: nat): (after: State)
    requires k <= |args|
    ensures |after.cells| == |st.cells| && SameControl(after, st)
    decreases |args| - k
  {
    if k == |args| then st
    else
      var st1 := if args[k].isReference then ApplyProxy(st, args[k].variable) else st;
      WriteBack(st1, args, k + 1)
  }

  /** One node's Execute. */
  function ExecNode(fm: FloatModel, prog: Program, fuel: nat, st: State, n: Node): (r: Result<State>)
    ensures r.Ok? ==> Extends(st, r.value)
    decreases fuel, n, 3, 0
  {
    match n
    case ExpressionNode(e) => ExecExpr(fm, prog, fuel, st, e)
    case IfNode(cond, _) =>
      var st1 :- ExecExpr(fm, prog, fuel, st, cond);
      if !Read(st1, cond.cell).booleanValue then Ok(st1) else IfBody(fm, prog, fuel, st1, n, 0)
    case WhileNode(id, cond, _) =>
      var st1 := UpdateLoop(st, id, LoopOf(st, id).(inProgress := true));
      var st2 :- ExecExpr(fm, prog, fuel, st1, cond);
      WhileFrom(fm, prog, fuel, st2, n)
    case ForNode(id, _, arr, _) =>
      var st1 := UpdateLoop(st, id, LoopOf(st, id).(inProgress := true));
      var st2 :- ExecExpr(fm, prog, fuel, st1, arr);
      ForFrom(fm, prog, fuel, st2, n, Read(st2, arr.cell).elements, Version(st2, arr.cell), 0)
    case ReturnNode(t) => Ok(ReturnTo(st, t))
    case BreakNode(t) => Ok(BreakLoop(st, t))
    case ContinueNode(t) => Ok(ContinueLoop(st, t))
  }

  /** The body of an IF from statement i on: every statement runs, with no flag checked. */
  function IfBody(fm: FloatModel, prog: Program, fuel: nat, st: State, n: Node, i: nat): (r: Result<State>)
    requires n.IfNode? && i <= |n.body|
    ensures r.Ok? ==> Extends(st, r.value)
    decreases fuel, n, 1, |n.body| - i
  {
    if i == |n.body| then Ok(st)
    else
      var st1 :- ExecNode(fm, prog, fuel, st, n.body[i]);
      IfBody(fm, prog, fuel, st1, n, i + 1)
  }

  /** One pass of a WHILE or FOR body from statement i on. A set continue flag is cleared
      and the next statement runs; a cleared in-progress flag stops the pass. */
  function LoopBody(fm: FloatModel, prog: Program, fuel: nat, st: State, n: Node, i: nat): (r: Result<Outcome>)
    requires n.IsLoop() && i <= |n.body|
    ensures r.Ok? ==> Extends(st, r.value.state)
    decreases fuel, n, 1, |n.body| - i
  {
    if i == |n.body| then Ok(Outcome(st, false))
    else
      var st1 :- ExecNode(fm, prog, fuel, st, n.body[i]);
      var flags := LoopOf(st1, n.loop);
      if flags.isToContinue then
        LoopBody(fm, prog, fuel, UpdateLoop(st1, n.loop, flags.(isToContinue := false)), n, i + 1)
      else if !flags.inProgress then Ok(Outcome(st1, true))
      else LoopBody(fm, prog, fuel, st1, n, i + 1)
  }

  /** The while loop of While.Execute, its condition just evaluated. */
  function WhileFrom(fm: FloatModel, prog: Program, fuel: nat, st: State, n: Node): (r: Result<State>)
    requires n.WhileNode?
    ensures r.Ok? ==> Extends(st, r.value)
    decreases fuel, n, 2, 0
  {
    if !Read(st, n.condition.cell).booleanValue then Ok(st)
    else
      var out :- LoopBody(fm, prog, fuel, st, n, 0);
      if out.stopped then Ok(out.state)
      else if fuel == 0 then Err(OutOfFuel)
      else
        var st1 :- ExecExpr(fm, prog, fuel - 1, out.state, n.condition);
        WhileFrom(fm, prog, fuel - 1, st1, n)
  }

  /** The foreach of For.Execute from element k on, over the elements the array expression
      held when the enumeration began; the enumerator fails once that list has changed. */
  function ForFrom(fm: FloatModel, prog: Program, fuel: nat, st: State, n: Node,
                   es: seq<Value>, version: nat, k: nat): (r: Result<State>)
    requires n.ForNode? && k <= |es|
    ensures r.Ok? ==> Extends(st, r.value)
    decreases fuel, n, 2, |es| - k
  {
    if Version(st, n.collection.cell) != version then Err(CollectionModified)
    else if k == |es| then Ok(st)
    else
      var st1 := SetVariables(st, n.variables, es[k], 0);
      var out :- LoopBody(fm, prog, fuel, st1, n, 0);
      if out.stopped then Ok(out.state)
      else ForFrom(fm, prog, fuel, out.state, n, es, version, k + 1)
  }

  /** Each loop variable from j on is Set from the element: a copy of it. */
  function SetVariables(st: State, vars: seq<Ref>, element: Value, j: nat): (after: State)
    requires j <= |vars|
    ensures |after.cells| == |st.cells| && SameControl(after, st)
    ensures forall y: Ref :: (forall i :: j <= i < |vars| ==> vars[i] != y) ==>
              Read(after, y) == Read(st, y) && Version(after, y) == Version(st, y)
    ensures forall i :: j <= i < |vars| && vars[i] < |st.cells| ==> Read(after, vars[i]) == Copy(element)
    decreases |vars| - j
  {
    if j == |vars| then st
    else SetVariables(Assign(st, vars[j], Copy(element)), vars, element, j + 1)
  }

  // ------------------------------------------------------------------ BREAK, CONTINUE, RETURN

  /** Return.Execute: the target's Return clears its in-progress flag. */
  function ReturnTo(st: State, t: Returnable): (after: State)
    ensures t.ScriptReturnable? ==> after == st.(inProgress := false)
    ensures t.FunctionReturnable? && t.owner < |st.functions| ==>
              after == st.(functions := st.functions[t.owner := FunctionOf(st, t.owner).(inProgress := false)])
    ensures after.cells == st.cells && after.loops == st.loops && |after.functions| == |st.functions|
  {
    match t
    case ScriptReturnable => st.(inProgress := false)
    case FunctionReturnable(f) => UpdateFunction(st, f, FunctionOf(st, f).(inProgress := false))
  }

  /** Break.Execute: the bound loop's Break clears its in-progress flag; with no bound loop,
      nothing happens. */
  function BreakLoop(st: State, t: Option<LoopId>): (after: State)
    ensures t.None? || t.value >= |st.loops| ==> after == st
    ensures t.Some? && t.value < |st.loops| ==>
              after == st.(loops := st.loops[t.value := LoopOf(st, t.value).(inProgress := false)])
  {
    match t
    case None => st
    case Some(id) => UpdateLoop(st, id, LoopOf(st, id).(inProgress := false))
  }

  /** Continue.Execute: the bound loop's Continue sets its continue flag. */
  function ContinueLoop(st: State, t: Option<LoopId>): (after: State)
    ensures t.None? || t.value >= |st.loops| ==> after == st
    ensures t.Some? && t.value < |st.loops| ==>
              after == st.(loops := st.loops[t.value := LoopOf(st, t.value).(isToContinue := true)])
  {
    match t
    case None => st
    case Some(id) => UpdateLoop(st, id, LoopOf(st, id).(isToContinue := true))
  }

  // ------------------------------------------------------------------ Script.Execute

  /** Script.Execute: set the flag and run the top-level statements until it is cleared. */
  function ExecScript(fm: FloatModel, prog: Program, fuel: nat, st: State): (r: Result<State>)
    ensures r.Ok? ==> Extends(st, r.value)
  {
    ScriptBody(fm, prog, fuel, st.(inProgress := true), 0)
  }

  function ScriptBody(fm: FloatModel, prog: Program, fuel: nat, st: State, i: nat): (r: Result<State>)
    requires i <= |prog.body|
    ensures r.Ok? ==> Extends(st, r.value)
    decreases |prog.body| - i
  {
    if i == |prog.body| then Ok(st)
    else
      var st1 :- ExecNode(fm, prog, fuel, st, prog.body[i]);
      if !st1.inProgress then Ok(st1) else ScriptBody(fm, prog, fuel, st1, i + 1)
  }

  // ------------------------------------------------------------------ Reset

  /** IExecutable.Reset of one node: an expression resets its tokens, a statement its
      children; BREAK, CONTINUE and RETURN throw. */
  function ResetNode(st: State, n: Node): (r: Result<State>)
    ensures r.Ok? ==> |r.value.cells| == |st.cells| && SameControl(r.value, st)
    ensures n.ReturnNode? || n.BreakNode? || n.ContinueNode? ==> r == Err(NotResetable)
    decreases n, 1, 0
  {
    match n
    case ExpressionNode(e) => Ok(ResetTokens(st, e.tokens, 0))
    case ReturnNode(_) => Err(NotResetable)
    case BreakNode(_) => Err(NotResetable)
    case ContinueNode(_) => Err(NotResetable)
    case _ => ResetChildren(st, n, 0)
  }

  /** Statement.Reset from child i on. */
  function ResetChildren(st: State, n: Node, i: nat): (r: Result<State>)
    requires (n.IfNode? || n.IsLoop()) && i <= |n.body|
    ensures r.Ok? ==> |r.value.cells| == |st.cells| && SameControl(r.value, st)
    decreases n, 0, |n.body| - i
  {
    if i == |n.body| then Ok(st)
    else
      var st1 :- ResetNode(st, n.body[i]);
      ResetChildren(st1, n, i + 1)
  }

  /** The Reset loop over a list of statements from i on. */
  function ResetNodes(st: State, nodes: seq<Node>, i: nat): (r: Result<State>)
    requires i <= |nodes|
    ensures r.Ok? ==> |r.value.cells| == |st.cells| && SameControl(r.value, st)
    decreases |nodes| - i
  {
    if i == |nodes| then Ok(st)
    else
      var st1 :- ResetNode(st, nodes[i]);
      ResetNodes(st1, nodes, i + 1)
  }

  /** Script.Reset: the top-level statements, then every function's body in declaration
      order (Function.Reset). */
  function ResetScript(st: State, prog: Program): (r: Result<State>)
    ensures r.Ok? ==> |r.value.cells| == |st.cells| && SameControl(r.value, st)
  {
    var st1 :- ResetNodes(st, prog.body, 0);
    ResetFunctions(st1, prog.functions, 0)
  }

  function ResetFunctions(st: State, defs: seq<FunctionDef>, f: nat): (r: Result<State>)
    requires f <= |defs|
    ensures r.Ok? ==> |r.value.cells| == |st.cells| && SameControl(r.value, st)
    decreases |defs| - f
  {
    if f == |defs| then Ok(st)
    else
      var st1 :- ResetNodes(st, defs[f].body, 0);
      ResetFunctions(st1, defs, f + 1)
  }
}
