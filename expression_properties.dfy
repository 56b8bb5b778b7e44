/** Properties of Expression.Execute on expressions without function calls: the conversion
    then only reorders tokens and leaves the store as it is, so it can be stated by a
    function of the tokens alone; operator precedence and parenthesis errors follow. */
module ExpressionProperties {
  import opened Wrappers
  import opened Numerics
  import opened Entities
  import opened Operables
  import opened Store
  import opened Syntax
  import opened Execution
  import Lexer
  import LexerProperties

  /** No token of the list from i on is a function call. */
  predicate CallFree(tokens: seq<Token>, i: nat) {
    forall k :: i <= k < |tokens| ==> !tokens[k].CallToken?
  }

  /** The conversion loop of Execute with its call branch taken out. It is not a second
      model of the conversion: ConvertCallFree proves it equal to Convert on call-free
      tokens, and it exists so that the worked examples below, which need neither the
      program nor the fuel, are cheaper to verify than through Convert. */
  function Shunt(st: State, tokens: seq<Token>, i: nat, stack: seq<Item>, queue: seq<Item>): Result<seq<Item>>
    requires i <= |tokens|
    decreases |tokens| - i
  {
    if i == |tokens| then Drain(st, stack, queue)
    else
      var tok := tokens[i];
      var t := TokenType(st, tok);
      if t.IsValueType() then Shunt(st, tokens, i + 1, stack, queue + [TokenItem(tok)])
      else if t == EntityType.Call then Err(InvalidCast)
      else if Lexer.IsOperator(t) then
        var sq := PopHigher(st, t, stack, queue);
        Shunt(st, tokens, i + 1, sq.0 + [TokenItem(tok)], sq.1)
      else if t == LParen then Shunt(st, tokens, i + 1, stack + [TokenItem(tok)], queue)
      else if t == RParen then
        var sq :- PopToParen(st, stack, queue);
        Shunt(st, tokens, i + 1, sq.0, sq.1)
      else Shunt(st, tokens, i + 1, stack, queue)
  }

  /** The conversion inside Execute, on call-free tokens, changes nothing in the store and
      yields the order Shunt computes; it depends neither on the program nor on the fuel. */
  lemma {:induction false} ConvertCallFree(fm: FloatModel, prog: Program, fuel: nat, st: State, e: Expr, i: nat,
                                           stack: seq<Item>, queue: seq<Item>)
    requires i <= |e.tokens| && CallFree(e.tokens, i)
    ensures Convert(fm, prog, fuel, st, e, i, stack, queue)
         == (var q :- Shunt(st, e.tokens, i, stack, queue); Ok((st, q)))
    decreases |e.tokens| - i
  {
    if i < |e.tokens| {
      var tok := e.tokens[i];
      var t := TokenType(st, tok);
      if t.IsValueType() {
        ConvertCallFree(fm, prog, fuel, st, e, i + 1, stack, queue + [TokenItem(tok)]);
      } else if t == EntityType.Call {
      } else if Lexer.IsOperator(t) {
        var sq := PopHigher(st, t, stack, queue);
        ConvertCallFree(fm, prog, fuel, st, e, i + 1, sq.0 + [TokenItem(tok)], sq.1);
      } else if t == LParen {
        ConvertCallFree(fm, prog, fuel, st, e, i + 1, stack + [TokenItem(tok)], queue);
      } else if t == RParen {
        var sq := PopToParen(st, stack, queue);
        if sq.Ok? {
          ConvertCallFree(fm, prog, fuel, st, e, i + 1, sq.value.0, sq.value.1);
        }
      } else {
        ConvertCallFree(fm, prog, fuel, st, e, i + 1, stack, queue);
      }
    }
  }

  /** Execute on a call-free expression: reset, conversion, postfix evaluation, and the
      expression's own value takes the one value left. Nothing is allocated and no flag
      changes. */
  function Evaluate(fm: FloatModel, st: State, e: Expr): (r: Result<State>)
    ensures r.Ok? ==> |r.value.cells| == |st.cells| && SameControl(r.value, st)
  {
    var st1 := ResetTokens(st, e.tokens, 0);
    var q :- Shunt(st1, e.tokens, 0, [], []);
    var sv :- Postfix(fm, st1, q, 0, []);
    Finish(sv.0, e.cell, sv.1)
  }

  /** A call token runs its call when the conversion reaches it, in the state the tokens
      before it left, and its result object is enqueued; a failing call fails Execute. */
  lemma ConvertRunsCall(fm: FloatModel, prog: Program, fuel: nat, st: State, e: Expr, i: nat,
                        stack: seq<Item>, queue: seq<Item>)
    requires i < |e.tokens| && e.tokens[i].CallToken?
    ensures var c := e.tokens[i].call;
            var r := ExecCall(fm, prog, fuel, st, c);
            Convert(fm, prog, fuel, st, e, i, stack, queue) ==
              (if r.Err? then Err(r.error)
               else Convert(fm, prog, fuel, r.value, e, i + 1, stack, queue + [CellItem(c.result)]))
  {
  }

  /** An expression without calls evaluates the same under any program and any fuel. */
  lemma ExecExprCallFree(fm: FloatModel, prog: Program, fuel: nat, st: State, e: Expr)
    requires CallFree(e.tokens, 0)
    ensures ExecExpr(fm, prog, fuel, st, e) == Evaluate(fm, st, e)
  {
    var st1 := ResetTokens(st, e.tokens, 0);
    ConvertCallFree(fm, prog, fuel, st1, e, 0, [], []);
  }

  /** The evaluation's switch has a case for exactly the tags IsOperator admits, so an
      operator is never popped without being applied. */
  lemma OperatorsHaveCases(t: EntityType)
    ensures Lexer.IsOperator(t) <==> HasCase(t)
  {
    LexerProperties.IsOperatorExactly(t);
  }

  /** An expression that is a lone integer literal n, in cell d: the literal regains n and
      the expression's object c takes a copy of it. */
  lemma EvaluateLiteral(fm: FloatModel, s: State, c: Ref, d: Ref, n: int)
    requires c < |s.cells| && d < |s.cells| && c != d
    ensures Evaluate(fm, s, Expr(c, [ConstToken(d, IntegerOrigin(n))]))
         == Ok(SetCell(ResetConst(s, d, IntegerOrigin(n)), c, d))
  {
    var e := Expr(c, [ConstToken(d, IntegerOrigin(n))]);
    var s1 := ResetConst(s, d, IntegerOrigin(n));
    assert ResetTokens(s, e.tokens, 0) == s1 by {
      assert ResetToken(s, e.tokens[0]) == s1;
    }
    assert Read(s1, d).valueType == Integer;
    ShuntValue(s1, e.tokens, 0, [], []);
    assert [] + [CellItem(d)] == [CellItem(d)];
    PostfixPush(fm, s1, [CellItem(d)], 0, []);
  }

  /** An expression that is a lone variable, read through its proxy p, depends on the tag
      the variable holds: a tag that is no value, no operator and no parenthesis is skipped
      by the conversion, no value is left, and Execute fails with InvalidExpression. */
  lemma LoneVariableNeedsValueTag(fm: FloatModel, s: State, c: Ref, p: Ref, y: Ref)
    requires p < |s.cells| && y < |s.cells| && y != p && Source(s, p) == Some(y)
    requires var t := Read(s, y).valueType;
             !t.IsValueType() && t != EntityType.Call && !Lexer.IsOperator(t) && t != LParen && t != RParen
    requires Read(s, y).elements == []
    ensures Evaluate(fm, s, Expr(c, [ProxyToken(p)])) == Err(InvalidExpression)
  {
    var e := Expr(c, [ProxyToken(p)]);
    var s1 := ResetProxy(s, p);
    assert ResetTokens(s, e.tokens, 0) == s1 by {
      assert ResetToken(s, e.tokens[0]) == s1;
    }
    assert Read(s1, p) == Read(s, y);
    assert Shunt(s1, e.tokens, 0, [], []) == Shunt(s1, e.tokens, 1, [], []);
    assert Shunt(s1, e.tokens, 0, [], []) == Ok([]);
  }

  // ------------------------------------------------------------------ precedence at work

  /** The Integer value n, as a literal holds it after its Reset. */
  function IntegerValue(n: int): (v: Value)
    ensures v.valueType == Integer && v.intValue == n
  {
    ConstNew(IntegerOrigin(n))
  }

  /** `2 + 3 * 4`, its literals in cells 1 to 3, evaluated into cell 0. */
  function SumOfProduct(): Expr {
    Expr(0, [ConstToken(1, IntegerOrigin(2)), SymbolToken(Plus), ConstToken(2, IntegerOrigin(3)),
             SymbolToken(Mul), ConstToken(3, IntegerOrigin(4))])
  }

  /** `*` binds tighter than `+`: `2 + 3 * 4` is 14, whatever the program and the fuel. The
      literal 2, the left operand of `+`, is left holding the sum. */
  lemma PrecedenceOrdersOperators(fm: FloatModel, prog: Program, fuel: nat, st: State)
    requires |st.cells| >= 4
    ensures ExecExpr(fm, prog, fuel, st, SumOfProduct()).Ok?
    ensures Read(ExecExpr(fm, prog, fuel, st, SumOfProduct()).value, 0) == IntegerValue(14)
    ensures Read(ExecExpr(fm, prog, fuel, st, SumOfProduct()).value, 1) == IntegerValue(14)
  {
    ExecExprCallFree(fm, prog, fuel, st, SumOfProduct());
    EvaluateSumOfProduct(fm, st);
  }

  /** Executing the same expression a second time gives the same result, although the first
      run left the literal 2 holding 14: Execute resets the literals before it evaluates. */
  lemma EvaluateTwice(fm: FloatModel, prog: Program, fuel: nat, st: State)
    requires |st.cells| >= 4
    ensures ExecExpr(fm, prog, fuel, st, SumOfProduct()).Ok?
    ensures var st1 := ExecExpr(fm, prog, fuel, st, SumOfProduct()).value;
            Read(st1, 1) == IntegerValue(14) &&
            ExecExpr(fm, prog, fuel, st1, SumOfProduct()).Ok? &&
            Read(ExecExpr(fm, prog, fuel, st1, SumOfProduct()).value, 0) == Read(st1, 0)
  {
    PrecedenceOrdersOperators(fm, prog, fuel, st);
    var st1 := ExecExpr(fm, prog, fuel, st, SumOfProduct()).value;
    PrecedenceOrdersOperators(fm, prog, fuel, st1);
  }

  lemma EvaluateSumOfProduct(fm: FloatModel, st: State)
    requires |st.cells| >= 4
    ensures Evaluate(fm, st, SumOfProduct()).Ok?
    ensures Read(Evaluate(fm, st, SumOfProduct()).value, 0) == IntegerValue(14)
    ensures Read(Evaluate(fm, st, SumOfProduct()).value, 1) == IntegerValue(14)
  {
    var e := SumOfProduct();
    var s1 := ResetTokens(st, e.tokens, 0);
    ResetSumOfProduct(st);
    var queue := [CellItem(1), CellItem(2), CellItem(3), SymbolItem(Mul), SymbolItem(Plus)];
    ShuntSumOfProduct(s1);
    PostfixSumOfProduct(fm, s1, queue);
    var sv := Postfix(fm, s1, queue, 0, []).value;
    EvaluateByPhases(fm, st, e, queue, sv);
    FinishOnFirstLiteral(sv.0, 14);
  }

  /** Execute on a call-free expression is its three phases in a row: reset, conversion and
      postfix evaluation, then the one value left is taken. */
  lemma EvaluateByPhases(fm: FloatModel, st: State, e: Expr, queue: seq<Item>, sv: (State, seq<Item>))
    requires Shunt(ResetTokens(st, e.tokens, 0), e.tokens, 0, [], []) == Ok(queue)
    requires Postfix(fm, ResetTokens(st, e.tokens, 0), queue, 0, []) == Ok(sv)
    ensures Evaluate(fm, st, e) == Finish(sv.0, e.cell, sv.1)
  {
  }

  /** The expression's own object takes a copy of the one value left, the first literal
      holding n. */
  lemma FinishOnFirstLiteral(s3: State, n: int)
    requires |s3.cells| >= 4 && Read(s3, 1) == IntegerValue(n)
    ensures Finish(s3, 0, [CellItem(1)]).Ok?
    ensures Read(Finish(s3, 0, [CellItem(1)]).value, 0) == IntegerValue(n)
    ensures Read(Finish(s3, 0, [CellItem(1)]).value, 1) == IntegerValue(n)
  {
    assert Copy(IntegerValue(n)) == IntegerValue(n);
  }

  /** The reset gives the three literals their values back. */
  lemma ResetSumOfProduct(st: State)
    requires |st.cells| >= 4
    ensures var s1 := ResetTokens(st, SumOfProduct().tokens, 0);
            Read(s1, 1) == IntegerValue(2) && Read(s1, 2) == IntegerValue(3) && Read(s1, 3) == IntegerValue(4)
  {
    var t := SumOfProduct().tokens;
    assert ResetsApart(t, 0) by {
      forall j, k, y: Ref | 0 <= j < k < |t| && Resets(t[j], y) ensures !Resets(t[k], y) {
        assert t[j].ConstToken? && t[j].cell == j / 2 + 1;
      }
    }
    assert t[0].ConstToken? && t[2].ConstToken? && t[4].ConstToken?;
  }

  /** The conversion queues 2 3 4 * +. */
  lemma ShuntSumOfProduct(s1: State)
    requires |s1.cells| >= 4
    requires Read(s1, 1) == IntegerValue(2) && Read(s1, 2) == IntegerValue(3) && Read(s1, 3) == IntegerValue(4)
    ensures Shunt(s1, SumOfProduct().tokens, 0, [], [])
         == Ok([CellItem(1), CellItem(2), CellItem(3), SymbolItem(Mul), SymbolItem(Plus)])
  {
    ShuntSumFirst(s1);
    ShuntSumSecond(s1);
    DrainSumOfProduct(s1);
  }

  /** Up to `*`: 2 and 3 are queued and `+` is stacked. */
  lemma ShuntSumFirst(s1: State)
    requires |s1.cells| >= 4
    requires Read(s1, 1) == IntegerValue(2) && Read(s1, 2) == IntegerValue(3)
    ensures Shunt(s1, SumOfProduct().tokens, 0, [], [])
         == Shunt(s1, SumOfProduct().tokens, 3, [SymbolItem(Plus)], [CellItem(1), CellItem(2)])
  {
    var t := SumOfProduct().tokens;
    var c1, c2 := CellItem(1), CellItem(2);
    var plus := SymbolItem(Plus);
    ShuntSumPlus(s1);
    ShuntValue(s1, t, 2, [plus], [c1]);
    assert [c1] + [c2] == [c1, c2];
  }

  /** 2 is queued and `+`, meeting an empty stack, is stacked. */
  lemma ShuntSumPlus(s1: State)
    requires |s1.cells| >= 4
    requires Read(s1, 1) == IntegerValue(2)
    ensures Shunt(s1, SumOfProduct().tokens, 0, [], [])
         == Shunt(s1, SumOfProduct().tokens, 2, [SymbolItem(Plus)], [CellItem(1)])
  {
    ShuntSumTwo(s1);
    ShuntSumPlusSign(s1);
  }

  /** 2 is queued. */
  lemma ShuntSumTwo(s1: State)
    requires |s1.cells| >= 4
    requires Read(s1, 1) == IntegerValue(2)
    ensures Shunt(s1, SumOfProduct().tokens, 0, [], []) == Shunt(s1, SumOfProduct().tokens, 1, [], [CellItem(1)])
  {
    assert [] + [CellItem(1)] == [CellItem(1)];
    ShuntValue(s1, SumOfProduct().tokens, 0, [], []);
  }

  /** `+`, meeting an empty stack, is stacked. */
  lemma ShuntSumPlusSign(s1: State)
    ensures Shunt(s1, SumOfProduct().tokens, 1, [], [CellItem(1)])
         == Shunt(s1, SumOfProduct().tokens, 2, [SymbolItem(Plus)], [CellItem(1)])
  {
    assert [] + [SymbolItem(Plus)] == [SymbolItem(Plus)];
    ShuntOperator(s1, SumOfProduct().tokens, 1, [], [CellItem(1)]);
  }

  /** From `*` on: `*` outranks the stacked `+` and is stacked over it, and 4 is queued. */
  lemma ShuntSumSecond(s1: State)
    requires |s1.cells| >= 4
    requires Read(s1, 3) == IntegerValue(4)
    ensures Shunt(s1, SumOfProduct().tokens, 3, [SymbolItem(Plus)], [CellItem(1), CellItem(2)])
         == Drain(s1, [SymbolItem(Plus), SymbolItem(Mul)], [CellItem(1), CellItem(2), CellItem(3)])
  {
    var t := SumOfProduct().tokens;
    var c1, c2, c3 := CellItem(1), CellItem(2), CellItem(3);
    var plus, mul := SymbolItem(Plus), SymbolItem(Mul);
    assert Shunt(s1, t, 3, [plus], [c1, c2]) == Shunt(s1, t, 4, [plus, mul], [c1, c2]) by {
      ShuntOperator(s1, t, 3, [plus], [c1, c2]);
      LexerProperties.IsOperatorExactly(Plus);
      assert PopHigher(s1, Mul, [plus], [c1, c2]) == ([plus], [c1, c2]);
      assert [plus] + [mul] == [plus, mul];
    }
    assert Shunt(s1, t, 4, [plus, mul], [c1, c2]) == Shunt(s1, t, 5, [plus, mul], [c1, c2, c3]) by {
      ShuntValue(s1, t, 4, [plus, mul], [c1, c2]);
      assert [c1, c2] + [c3] == [c1, c2, c3];
    }
  }

  lemma DrainSumOfProduct(s1: State)
    ensures Drain(s1, [SymbolItem(Plus), SymbolItem(Mul)], [CellItem(1), CellItem(2), CellItem(3)])
         == Ok([CellItem(1), CellItem(2), CellItem(3), SymbolItem(Mul), SymbolItem(Plus)])
  {
    var stack := [SymbolItem(Plus), SymbolItem(Mul)];
    assert forall k :: 0 <= k < |stack| ==> TypeOf(s1, stack[k]) !in {LParen, RParen};
    assert Reversed(stack) == [SymbolItem(Mul), SymbolItem(Plus)] by {
      assert Reversed(stack)[0] == stack[1];
    }
    assert [CellItem(1), CellItem(2), CellItem(3)] + [SymbolItem(Mul), SymbolItem(Plus)]
        == [CellItem(1), CellItem(2), CellItem(3), SymbolItem(Mul), SymbolItem(Plus)];
  }

  /** A token whose live tag is a value type goes to the queue. */
  lemma ShuntValue(st: State, tokens: seq<Token>, i: nat, stack: seq<Item>, queue: seq<Item>)
    requires i < |tokens| && tokens[i].ConstToken? && Read(st, tokens[i].cell).valueType == Integer
    ensures Shunt(st, tokens, i, stack, queue) == Shunt(st, tokens, i + 1, stack, queue + [CellItem(tokens[i].cell)])
  {
  }

  /** An operator moves the stacked operators of at least its precedence to the queue and
      is stacked. */
  lemma ShuntOperator(st: State, tokens: seq<Token>, i: nat, stack: seq<Item>, queue: seq<Item>)
    requires i < |tokens| && tokens[i].SymbolToken? && Lexer.IsOperator(tokens[i].tokenType)
    ensures var sq := PopHigher(st, tokens[i].tokenType, stack, queue);
            Shunt(st, tokens, i, stack, queue) == Shunt(st, tokens, i + 1, sq.0 + [SymbolItem(tokens[i].tokenType)], sq.1)
  {
    LexerProperties.IsOperatorExactly(tokens[i].tokenType);
  }

  /** `(` is stacked. */
  lemma ShuntLParen(st: State, tokens: seq<Token>, i: nat, stack: seq<Item>, queue: seq<Item>)
    requires i < |tokens| && tokens[i] == SymbolToken(LParen)
    ensures Shunt(st, tokens, i, stack, queue) == Shunt(st, tokens, i + 1, stack + [SymbolItem(LParen)], queue)
  {
    LexerProperties.IsOperatorExactly(LParen);
  }

  /** `)` pops the stack to the queue down to the topmost `(`, which is dropped. */
  lemma ShuntRParen(st: State, tokens: seq<Token>, i: nat, stack: seq<Item>, queue: seq<Item>)
    requires i < |tokens| && tokens[i] == SymbolToken(RParen)
    ensures Shunt(st, tokens, i, stack, queue)
         == (var sq :- PopToParen(st, stack, queue); Shunt(st, tokens, i + 1, sq.0, sq.1))
  {
    LexerProperties.IsOperatorExactly(RParen);
  }

  /** The postfix loop over 2 3 4 * + multiplies into the literal 3 and adds into the
      literal 2, which is the one value left. */
  lemma PostfixSumOfProduct(fm: FloatModel, s1: State, queue: seq<Item>)
    requires |s1.cells| >= 4
    requires Read(s1, 1) == IntegerValue(2) && Read(s1, 2) == IntegerValue(3) && Read(s1, 3) == IntegerValue(4)
    requires queue == [CellItem(1), CellItem(2), CellItem(3), SymbolItem(Mul), SymbolItem(Plus)]
    ensures Postfix(fm, s1, queue, 0, []).Ok?
    ensures var r := Postfix(fm, s1, queue, 0, []).value;
            r.1 == [CellItem(1)] && |r.0.cells| == |s1.cells| && SameControl(r.0, s1)
            && Read(r.0, 1) == IntegerValue(14)
  {
    var s2 := Put(s1, 2, IntegerValue(12));
    var s3 := Put(s2, 1, IntegerValue(14));
    PushSumOfProduct(fm, s1, queue);
    PostfixMulSumOfProduct(fm, s1, queue);
    PostfixAddSumOfProduct(fm, s2, queue);
    assert Postfix(fm, s3, queue, 5, [CellItem(1)]) == Ok((s3, [CellItem(1)]));
  }

  /** `*` multiplies the literal 4 into the literal 3. */
  lemma PostfixMulSumOfProduct(fm: FloatModel, s1: State, queue: seq<Item>)
    requires |s1.cells| >= 4
    requires Read(s1, 2) == IntegerValue(3) && Read(s1, 3) == IntegerValue(4)
    requires queue == [CellItem(1), CellItem(2), CellItem(3), SymbolItem(Mul), SymbolItem(Plus)]
    ensures Postfix(fm, s1, queue, 3, [CellItem(1), CellItem(2), CellItem(3)])
         == Postfix(fm, Put(s1, 2, IntegerValue(12)), queue, 4, [CellItem(1), CellItem(2)])
  {
    var c1, c2, c3 := CellItem(1), CellItem(2), CellItem(3);
    var values := [c1, c2, c3];
    MulSumOfProduct(fm, s1);
    assert values[..1] + [c2] == [c1, c2];
    PostfixApply(fm, s1, queue, 3, values, Mul, 2, 3, Put(s1, 2, IntegerValue(12)));
  }

  /** `+` adds the product, now in the literal 3, into the literal 2. */
  lemma PostfixAddSumOfProduct(fm: FloatModel, s2: State, queue: seq<Item>)
    requires |s2.cells| >= 4
    requires Read(s2, 1) == IntegerValue(2) && Read(s2, 2) == IntegerValue(12)
    requires queue == [CellItem(1), CellItem(2), CellItem(3), SymbolItem(Mul), SymbolItem(Plus)]
    ensures Postfix(fm, s2, queue, 4, [CellItem(1), CellItem(2)])
         == Postfix(fm, Put(s2, 1, IntegerValue(14)), queue, 5, [CellItem(1)])
  {
    var c1, c2 := CellItem(1), CellItem(2);
    var values := [c1, c2];
    AddSumOfProduct(fm, s2);
    assert values[..0] + [c1] == [c1];
    PostfixApply(fm, s2, queue, 4, values, Plus, 1, 2, Put(s2, 1, IntegerValue(14)));
  }

  /** The three literals are pushed in order. */
  lemma PushSumOfProduct(fm: FloatModel, s1: State, queue: seq<Item>)
    requires |s1.cells| >= 4
    requires Read(s1, 1) == IntegerValue(2) && Read(s1, 2) == IntegerValue(3) && Read(s1, 3) == IntegerValue(4)
    requires queue == [CellItem(1), CellItem(2), CellItem(3), SymbolItem(Mul), SymbolItem(Plus)]
    ensures Postfix(fm, s1, queue, 0, []) == Postfix(fm, s1, queue, 3, [CellItem(1), CellItem(2), CellItem(3)])
  {
    var c1, c2, c3 := CellItem(1), CellItem(2), CellItem(3);
    PostfixPush(fm, s1, queue, 0, []);
    assert [] + [c1] == [c1];
    PostfixPush(fm, s1, queue, 1, [c1]);
    assert [c1] + [c2] == [c1, c2];
    PostfixPush(fm, s1, queue, 2, [c1, c2]);
    assert [c1, c2] + [c3] == [c1, c2, c3];
  }

  lemma MulSumOfProduct(fm: FloatModel, s1: State)
    requires |s1.cells| >= 4 && Read(s1, 2) == IntegerValue(3) && Read(s1, 3) == IntegerValue(4)
    ensures ApplyOperator(fm, s1, Mul, 2, 3) == Ok(Put(s1, 2, IntegerValue(12)))
  {
  }

  lemma AddSumOfProduct(fm: FloatModel, s2: State)
    requires |s2.cells| >= 4 && Read(s2, 1) == IntegerValue(2) && Read(s2, 2) == IntegerValue(12)
    ensures ApplyOperator(fm, s2, Plus, 1, 2) == Ok(Put(s2, 1, IntegerValue(14)))
  {
  }

  // ------------------------------------------------------------------ parentheses at work

  /** `(2 + 3) * 4`, its literals in cells 1 to 3, evaluated into cell 0. */
  function ProductOfSum(): Expr {
    Expr(0, [SymbolToken(LParen), ConstToken(1, IntegerOrigin(2)), SymbolToken(Plus),
             ConstToken(2, IntegerOrigin(3)), SymbolToken(RParen), SymbolToken(Mul),
             ConstToken(3, IntegerOrigin(4))])
  }

  /** Parentheses override precedence: `(2 + 3) * 4` is 20, whatever the program and the
      fuel, and the literal 2 is left holding it. */
  lemma ParenthesesGroupFirst(fm: FloatModel, prog: Program, fuel: nat, st: State)
    requires |st.cells| >= 4
    ensures ExecExpr(fm, prog, fuel, st, ProductOfSum()).Ok?
    ensures Read(ExecExpr(fm, prog, fuel, st, ProductOfSum()).value, 0) == IntegerValue(20)
    ensures Read(ExecExpr(fm, prog, fuel, st, ProductOfSum()).value, 1) == IntegerValue(20)
  {
    var t := ProductOfSum().tokens;
    assert CallFree(t, 0) by {
      forall k | 0 <= k < |t| ensures !t[k].CallToken? {
      }
    }
    ExecExprCallFree(fm, prog, fuel, st, ProductOfSum());
    EvaluateProductOfSum(fm, st);
  }

  lemma EvaluateProductOfSum(fm: FloatModel, st: State)
    requires |st.cells| >= 4
    ensures Evaluate(fm, st, ProductOfSum()).Ok?
    ensures Read(Evaluate(fm, st, ProductOfSum()).value, 0) == IntegerValue(20)
    ensures Read(Evaluate(fm, st, ProductOfSum()).value, 1) == IntegerValue(20)
  {
    var e := ProductOfSum();
    var s1 := ResetTokens(st, e.tokens, 0);
    ResetProductOfSum(st);
    var queue := [CellItem(1), CellItem(2), SymbolItem(Plus), CellItem(3), SymbolItem(Mul)];
    ShuntProductOfSum(s1);
    PostfixProductOfSum(fm, s1, queue);
    var sv := Postfix(fm, s1, queue, 0, []).value;
    EvaluateByPhases(fm, st, e, queue, sv);
    FinishOnFirstLiteral(sv.0, 20);
  }

  /** The reset gives the three literals their values back. */
  lemma ResetProductOfSum(st: State)
    requires |st.cells| >= 4
    ensures var s1 := ResetTokens(st, ProductOfSum().tokens, 0);
            Read(s1, 1) == IntegerValue(2) && Read(s1, 2) == IntegerValue(3) && Read(s1, 3) == IntegerValue(4)
  {
    var t := ProductOfSum().tokens;
    assert ResetsApart(t, 0) by {
      forall j, k, y: Ref | 0 <= j < k < |t| && Resets(t[j], y) ensures !Resets(t[k], y) {
        assert t[j].ConstToken? && j in {1, 3, 6};
      }
    }
    assert t[1].ConstToken? && t[3].ConstToken? && t[6].ConstToken?;
  }

  /** The conversion queues 2 3 + 4 *: the parenthesis keeps `+` off the stack's top until
      `)` sends it to the queue, before `*` arrives. */
  lemma ShuntProductOfSum(s1: State)
    requires |s1.cells| >= 4
    requires Read(s1, 1) == IntegerValue(2) && Read(s1, 2) == IntegerValue(3) && Read(s1, 3) == IntegerValue(4)
    ensures Shunt(s1, ProductOfSum().tokens, 0, [], [])
         == Ok([CellItem(1), CellItem(2), SymbolItem(Plus), CellItem(3), SymbolItem(Mul)])
  {
    ShuntGroup(s1);
    ShuntAfterGroup(s1);
  }

  /** Up to `)`: 2 and 3 are queued and `+` is stacked over `(`. */
  lemma ShuntGroup(s1: State)
    requires |s1.cells| >= 4
    requires Read(s1, 1) == IntegerValue(2) && Read(s1, 2) == IntegerValue(3)
    ensures Shunt(s1, ProductOfSum().tokens, 0, [], [])
         == Shunt(s1, ProductOfSum().tokens, 4, [SymbolItem(LParen), SymbolItem(Plus)], [CellItem(1), CellItem(2)])
  {
    ShuntOpenGroup(s1);
    ShuntGroupPlus(s1);
  }

  /** `(` is stacked and 2 is queued. */
  lemma ShuntOpenGroup(s1: State)
    requires |s1.cells| >= 4 && Read(s1, 1) == IntegerValue(2)
    ensures Shunt(s1, ProductOfSum().tokens, 0, [], [])
         == Shunt(s1, ProductOfSum().tokens, 2, [SymbolItem(LParen)], [CellItem(1)])
  {
    var t := ProductOfSum().tokens;
    var lp := SymbolItem(LParen);
    ShuntLParen(s1, t, 0, [], []);
    assert [] + [lp] == [lp];
    ShuntValue(s1, t, 1, [lp], []);
    assert [] + [CellItem(1)] == [CellItem(1)];
  }

  /** `+` meets `(`, which is no operator, and is stacked over it; 3 is queued. */
  lemma ShuntGroupPlus(s1: State)
    requires |s1.cells| >= 4 && Read(s1, 2) == IntegerValue(3)
    ensures Shunt(s1, ProductOfSum().tokens, 2, [SymbolItem(LParen)], [CellItem(1)])
         == Shunt(s1, ProductOfSum().tokens, 4, [SymbolItem(LParen), SymbolItem(Plus)], [CellItem(1), CellItem(2)])
  {
    var t := ProductOfSum().tokens;
    var lp, plus := SymbolItem(LParen), SymbolItem(Plus);
    PlusOverParen(s1);
    ShuntOperator(s1, t, 2, [lp], [CellItem(1)]);
    assert [lp] + [plus] == [lp, plus];
    ShuntValue(s1, t, 3, [lp, plus], [CellItem(1)]);
    assert [CellItem(1)] + [CellItem(2)] == [CellItem(1), CellItem(2)];
  }

  lemma PlusOverParen(s1: State)
    ensures PopHigher(s1, Plus, [SymbolItem(LParen)], [CellItem(1)]) == ([SymbolItem(LParen)], [CellItem(1)])
  {
    LexerProperties.IsOperatorExactly(LParen);
  }

  /** From `)` on: `+` goes to the queue and `(` is dropped, `*` meets an empty stack, 4 is
      queued and the stack is drained. */
  lemma ShuntAfterGroup(s1: State)
    requires |s1.cells| >= 4
    requires Read(s1, 3) == IntegerValue(4)
    ensures Shunt(s1, ProductOfSum().tokens, 4, [SymbolItem(LParen), SymbolItem(Plus)], [CellItem(1), CellItem(2)])
         == Ok([CellItem(1), CellItem(2), SymbolItem(Plus), CellItem(3), SymbolItem(Mul)])
  {
    ShuntCloseGroup(s1);
    ShuntGroupMul(s1);
    ShuntGroupDrain(s1);
  }

  /** `)` sends `+` to the queue and drops `(`. */
  lemma ShuntCloseGroup(s1: State)
    ensures Shunt(s1, ProductOfSum().tokens, 4, [SymbolItem(LParen), SymbolItem(Plus)], [CellItem(1), CellItem(2)])
         == Shunt(s1, ProductOfSum().tokens, 5, [], [CellItem(1), CellItem(2), SymbolItem(Plus)])
  {
    ShuntRParen(s1, ProductOfSum().tokens, 4, [SymbolItem(LParen), SymbolItem(Plus)], [CellItem(1), CellItem(2)]);
    CloseGroup(s1);
  }

  lemma CloseGroup(s1: State)
    ensures PopToParen(s1, [SymbolItem(LParen), SymbolItem(Plus)], [CellItem(1), CellItem(2)])
         == Ok(([], [CellItem(1), CellItem(2), SymbolItem(Plus)]))
  {
    var lp, plus := SymbolItem(LParen), SymbolItem(Plus);
    assert TopParen(s1, [lp, plus]) == Some(0) by {
      assert [lp, plus][..1] == [lp];
    }
    assert Reversed([lp, plus][1..]) == [plus] by {
      assert [lp, plus][1..] == [plus];
    }
    assert [CellItem(1), CellItem(2)] + [plus] == [CellItem(1), CellItem(2), plus];
  }

  /** `*` meets an empty stack and is stacked; 4 is queued. */
  lemma ShuntGroupMul(s1: State)
    requires |s1.cells| >= 4 && Read(s1, 3) == IntegerValue(4)
    ensures Shunt(s1, ProductOfSum().tokens, 5, [], [CellItem(1), CellItem(2), SymbolItem(Plus)])
         == Shunt(s1, ProductOfSum().tokens, 7, [SymbolItem(Mul)], [CellItem(1), CellItem(2), SymbolItem(Plus), CellItem(3)])
  {
    var t := ProductOfSum().tokens;
    var q := [CellItem(1), CellItem(2), SymbolItem(Plus)];
    ShuntOperator(s1, t, 5, [], q);
    assert [] + [SymbolItem(Mul)] == [SymbolItem(Mul)];
    ShuntValue(s1, t, 6, [SymbolItem(Mul)], q);
    assert q + [CellItem(3)] == [CellItem(1), CellItem(2), SymbolItem(Plus), CellItem(3)];
  }

  lemma ShuntGroupDrain(s1: State)
    ensures Shunt(s1, ProductOfSum().tokens, 7, [SymbolItem(Mul)], [CellItem(1), CellItem(2), SymbolItem(Plus), CellItem(3)])
         == Ok([CellItem(1), CellItem(2), SymbolItem(Plus), CellItem(3), SymbolItem(Mul)])
  {
    assert Reversed([SymbolItem(Mul)]) == [SymbolItem(Mul)];
    assert [CellItem(1), CellItem(2), SymbolItem(Plus), CellItem(3)] + [SymbolItem(Mul)]
        == [CellItem(1), CellItem(2), SymbolItem(Plus), CellItem(3), SymbolItem(Mul)];
  }

  /** The postfix loop over 2 3 + 4 * adds into the literal 2, then multiplies the literal 4
      into it: it is the one value left. */
  lemma PostfixProductOfSum(fm: FloatModel, s1: State, queue: seq<Item>)
    requires |s1.cells| >= 4
    requires Read(s1, 1) == IntegerValue(2) && Read(s1, 2) == IntegerValue(3) && Read(s1, 3) == IntegerValue(4)
    requires queue == [CellItem(1), CellItem(2), SymbolItem(Plus), CellItem(3), SymbolItem(Mul)]
    ensures Postfix(fm, s1, queue, 0, []).Ok?
    ensures var r := Postfix(fm, s1, queue, 0, []).value;
            r.1 == [CellItem(1)] && |r.0.cells| == |s1.cells| && SameControl(r.0, s1)
            && Read(r.0, 1) == IntegerValue(20)
  {
    var s2 := Put(s1, 1, IntegerValue(5));
    var s3 := Put(s2, 1, IntegerValue(20));
    PostfixSumFirst(fm, s1, queue);
    PostfixThenProduct(fm, s2, queue);
    assert Postfix(fm, s3, queue, 5, [CellItem(1)]) == Ok((s3, [CellItem(1)]));
  }

  /** 2 and 3 are pushed and `+` adds the literal 3 into the literal 2. */
  lemma PostfixSumFirst(fm: FloatModel, s1: State, queue: seq<Item>)
    requires |s1.cells| >= 4
    requires Read(s1, 1) == IntegerValue(2) && Read(s1, 2) == IntegerValue(3)
    requires queue == [CellItem(1), CellItem(2), SymbolItem(Plus), CellItem(3), SymbolItem(Mul)]
    ensures Postfix(fm, s1, queue, 0, []) == Postfix(fm, Put(s1, 1, IntegerValue(5)), queue, 3, [CellItem(1)])
  {
    var c1, c2 := CellItem(1), CellItem(2);
    PostfixPush(fm, s1, queue, 0, []);
    assert [] + [c1] == [c1];
    PostfixPush(fm, s1, queue, 1, [c1]);
    assert [c1] + [c2] == [c1, c2];
    AddProductOfSum(fm, s1);
    assert [c1, c2][..0] + [c1] == [c1];
    PostfixApply(fm, s1, queue, 2, [c1, c2], Plus, 1, 2, Put(s1, 1, IntegerValue(5)));
  }

  /** 4 is pushed and `*` multiplies it into the sum. */
  lemma PostfixThenProduct(fm: FloatModel, s2: State, queue: seq<Item>)
    requires |s2.cells| >= 4
    requires Read(s2, 1) == IntegerValue(5) && Read(s2, 3) == IntegerValue(4)
    requires queue == [CellItem(1), CellItem(2), SymbolItem(Plus), CellItem(3), SymbolItem(Mul)]
    ensures Postfix(fm, s2, queue, 3, [CellItem(1)]) == Postfix(fm, Put(s2, 1, IntegerValue(20)), queue, 5, [CellItem(1)])
  {
    var c1, c3 := CellItem(1), CellItem(3);
    PostfixPush(fm, s2, queue, 3, [c1]);
    assert [c1] + [c3] == [c1, c3];
    MulProductOfSum(fm, s2);
    assert [c1, c3][..0] + [c1] == [c1];
    PostfixApply(fm, s2, queue, 4, [c1, c3], Mul, 1, 3, Put(s2, 1, IntegerValue(20)));
  }

  lemma AddProductOfSum(fm: FloatModel, s1: State)
    requires |s1.cells| >= 4 && Read(s1, 1) == IntegerValue(2) && Read(s1, 2) == IntegerValue(3)
    ensures ApplyOperator(fm, s1, Plus, 1, 2) == Ok(Put(s1, 1, IntegerValue(5)))
  {
  }

  lemma MulProductOfSum(fm: FloatModel, s2: State)
    requires |s2.cells| >= 4 && Read(s2, 1) == IntegerValue(5) && Read(s2, 3) == IntegerValue(4)
    ensures ApplyOperator(fm, s2, Mul, 1, 3) == Ok(Put(s2, 1, IntegerValue(20)))
  {
  }

  // ------------------------------------------------------------------ postfix steps

  /** An operand is pushed on the value stack. */
  lemma PostfixPush(fm: FloatModel, st: State, queue: seq<Item>, k: nat, values: seq<Item>)
    requires k < |queue| && TypeOf(st, queue[k]).IsValueType()
    ensures Postfix(fm, st, queue, k, values) == Postfix(fm, st, queue, k + 1, values + [queue[k]])
  {
  }

  /** A binary operator pops its two operands, mutates the left one with the right one and
      pushes the left one back: the stack's top is then the operator's result. */
  lemma PostfixApply(fm: FloatModel, st: State, queue: seq<Item>, k: nat, values: seq<Item>,
                     op: EntityType, a: Ref, b: Ref, after: State)
    requires k < |queue| && queue[k] == SymbolItem(op) && HasCase(op)
    requires |values| >= 2 && values[|values| - 2] == CellItem(a) && values[|values| - 1] == CellItem(b)
    requires ApplyOperator(fm, st, op, a, b) == Ok(after)
    ensures Postfix(fm, st, queue, k, values) == Postfix(fm, after, queue, k + 1, values[..|values| - 2] + [CellItem(a)])
  {
    LexerProperties.IsOperatorExactly(op);
    assert TypeOf(st, queue[k]) == op && !op.IsValueType() && Lexer.IsOperator(op);
  }
}
