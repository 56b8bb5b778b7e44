/** What the parser promises about the structure it builds: a block is cut out at its
    matching brace, a call ends at its matching parenthesis, an expression ends at the first
    stop token, DEF records its parameters in order, and every BREAK, CONTINUE and RETURN is
    bound to the nearest enclosing loop and the enclosing function or Script. */
module ParserProperties {
  import opened Wrappers
  import opened Entities
  import opened Store
  import opened Syntax
  import opened Operables
  import opened Parser
  import Numerics
  import Lexer

  // ------------------------------------------------------------------ nesting depth

  /** The change of nesting depth one token makes, for a pair of bracket tokens. */
  function Step(e: Entity, open: EntityType, close: EntityType): int {
    if e.Type() == open then 1 else if e.Type() == close then -1 else 0
  }

  /** The nesting depth at the end of a token list, counting from 0. */
  function Nesting(s: seq<Entity>, open: EntityType, close: EntityType): int {
    if |s| == 0 then 0 else Step(s[0], open, close) + Nesting(s[1..], open, close)
  }

  lemma NestingFirst(tokens: seq<Entity>, i: nat, k: nat, open: EntityType, close: EntityType)
    requires i < k <= |tokens|
    ensures Nesting(tokens[i..k], open, close) == Step(tokens[i], open, close) + Nesting(tokens[i + 1..k], open, close)
  {
    assert tokens[i..k][1..] == tokens[i + 1..k];
  }

  /** The nesting depth of tokens[i..k] is the first token's step plus that of the rest. */
  lemma NestingFrom(tokens: seq<Entity>, i: nat, open: EntityType, close: EntityType)
    requires i < |tokens|
    ensures forall k :: i < k <= |tokens| ==>
              Nesting(tokens[i..k], open, close) == Step(tokens[i], open, close) + Nesting(tokens[i + 1..k], open, close)
  {
    forall k | i < k <= |tokens|
      ensures Nesting(tokens[i..k], open, close) == Step(tokens[i], open, close) + Nesting(tokens[i + 1..k], open, close)
    {
      NestingFirst(tokens, i, k, open, close);
    }
  }

  /** The block loop stops at the first position where the depth, starting from `depth`,
      comes back to 0. */
  lemma {:induction false} CloseFromMatches(tokens: seq<Entity>, i: nat, depth: int)
    requires depth > 0 && i <= |tokens|
    ensures CloseFrom(tokens, i, depth).Ok? ==>
              var j := CloseFrom(tokens, i, depth).value;
              && depth + Nesting(tokens[i..j + 1], BeginBlock, EndBlock) == 0
              && forall k :: i <= k <= j ==> depth + Nesting(tokens[i..k], BeginBlock, EndBlock) > 0
    decreases |tokens| - i
  {
    if i < |tokens| {
      var d := depth + BraceStep(tokens[i]);
      NestingFrom(tokens, i, BeginBlock, EndBlock);
      assert tokens[i..i] == [];
      if d == 0 {
        assert tokens[i + 1..i + 1] == [];
      } else {
        CloseFromMatches(tokens, i + 1, d);
      }
    }
  }

  /** The block loop fails when the depth, starting from `depth`, never comes back to 0. */
  lemma {:induction false} CloseFromUnmatched(tokens: seq<Entity>, i: nat, depth: int)
    requires depth > 0 && i <= |tokens|
    ensures CloseFrom(tokens, i, depth).Err? ==>
              forall k :: i <= k <= |tokens| ==> depth + Nesting(tokens[i..k], BeginBlock, EndBlock) > 0
    decreases |tokens| - i
  {
    assert tokens[i..i] == [];
    if i < |tokens| {
      var d := depth + BraceStep(tokens[i]);
      if d != 0 {
        NestingFrom(tokens, i, BeginBlock, EndBlock);
        CloseFromUnmatched(tokens, i + 1, d);
      }
    }
  }

  /** CollectInternalTokens: it succeeds exactly when the token at index is `{` and its brace
      is closed later; then the `}` it reports is the first place where the braces balance,
      and the body is everything strictly between. */
  lemma CollectMatches(tokens: seq<Entity>, index: nat)
    ensures Collect(tokens, index).Ok? <==>
              && index < |tokens| && tokens[index].Type() == BeginBlock
              && exists k :: index < k <= |tokens| && Nesting(tokens[index..k], BeginBlock, EndBlock) == 0
    ensures Collect(tokens, index).Ok? ==>
              var (body, j) := Collect(tokens, index).value;
              && body == tokens[index + 1..j]
              && Nesting(tokens[index..j + 1], BeginBlock, EndBlock) == 0
              && forall k :: index < k <= j ==> Nesting(tokens[index..k], BeginBlock, EndBlock) > 0
  {
    if index < |tokens| && tokens[index].Type() == BeginBlock {
      CloseFromMatches(tokens, index + 1, 1);
      CloseFromUnmatched(tokens, index + 1, 1);
      NestingFrom(tokens, index, BeginBlock, EndBlock);
      var r := CloseFrom(tokens, index + 1, 1);
      if r.Ok? {
        assert Nesting(tokens[index..r.value + 1], BeginBlock, EndBlock) == 0;
      }
    }
  }

  // ------------------------------------------------------------------ expressions

  /** No identifier at k is followed by `(`: the token at k starts no call. */
  predicate NoCallAt(tokens: seq<Entity>, k: nat) {
    !(k + 1 < |tokens| && tokens[k].Word? && tokens[k + 1].Type() == LParen)
  }

  /** The first position from i on that holds `;`, `{` or `,`, or the end. */
  function StopFrom(tokens: seq<Entity>, i: nat): (r: nat)
    requires i <= |tokens|
    ensures i <= r <= |tokens| && (r == |tokens| || IsStop(tokens[r]))
    ensures forall k :: i <= k < r ==> !IsStop(tokens[k])
    decreases |tokens| - i
  {
    if i == |tokens| || IsStop(tokens[i]) then i else StopFrom(tokens, i + 1)
  }

  /** The expression entry a token becomes: a literal its constant, a symbol itself, an
      identifier a proxy. */
  predicate Translates(e: Entity, t: Token) {
    match e
    case Literal(o) => t.ConstToken? && t.origin == o
    case Token(tt) => t == SymbolToken(tt)
    case Word(_) => t.ProxyToken?
  }

  /** The entry ProcessExpression appends for a token that starts no call. */
  function NextEntry(ps: Parse, parent: Option<FunctionId>, t: Entity): (r: Result<(Parse, Token)>)
    ensures r.Ok? ==> Translates(t, r.value.1)
    ensures r.Err? ==> r.error.KeyNotFound? && parent.Some? && t.Word?
  {
    match t
    case Word(name) =>
      var v :- ProcessVariable(ps, name, parent);
      var (ps2, p) := NewProxyOf(v.0, v.1);
      Ok((ps2, ProxyToken(p)))
    case Literal(o) =>
      var (ps1, c) := NewObject(ps, ConstNew(o));
      Ok((ps1, ConstToken(c, o)))
    case Token(tt) => Ok((ps, SymbolToken(tt)))
  }

  /** One turn of ProcessExpression's loop on a token that is no stop and starts no call. */
  lemma ExpressionFromStep(ps: Parse, parent: Option<FunctionId>, tokens: seq<Entity>, index: nat, e: Expr)
    requires index < |tokens| && !IsStop(tokens[index]) && NoCallAt(tokens, index)
    ensures ExpressionFrom(ps, parent, tokens, index, e) ==
              (var n :- NextEntry(ps, parent, tokens[index]);
               ExpressionFrom(n.0, parent, tokens, index + 1, e.(tokens := e.tokens + [n.1])))
  {
  }

  /** What ProcessExpression from index on leaves, when it succeeds, for tokens that start
      no call: it stops at the first stop token and appends to e one entry per token, in
      order. */
  predicate PlainParsed(tokens: seq<Entity>, index: nat, e: Expr, r: Result<(Parse, Expr, nat)>)
    requires index <= |tokens|
  {
    r.Ok? ==>
      && r.value.2 == StopFrom(tokens, index)
      && |r.value.1.tokens| == |e.tokens| + (r.value.2 - index)
      && r.value.1.tokens[..|e.tokens|] == e.tokens
      && forall k :: index <= k < r.value.2 ==> Translates(tokens[k], r.value.1.tokens[|e.tokens| + (k - index)])
  }

  /** ProcessExpression over tokens that start no call: it stops at the first stop token,
      makes one entry per token in order, and fails only on a parameter lookup (never at the
      Script's level). */
  lemma {:induction false} ExpressionFromCallFree(ps: Parse, parent: Option<FunctionId>,
                                                  tokens: seq<Entity>, index: nat, e: Expr)
    requires index <= |tokens|
    requires forall k :: index <= k < |tokens| ==> NoCallAt(tokens, k)
    ensures PlainParsed(tokens, index, e, ExpressionFrom(ps, parent, tokens, index, e))
    ensures ExpressionFrom(ps, parent, tokens, index, e).Err? ==>
              ExpressionFrom(ps, parent, tokens, index, e).error.KeyNotFound? && parent.Some?
    decreases |tokens| - index
  {
    if index < |tokens| && !IsStop(tokens[index]) {
      ExpressionFromStep(ps, parent, tokens, index, e);
      var n := NextEntry(ps, parent, tokens[index]);
      if n.Ok? {
        var e1 := e.(tokens := e.tokens + [n.value.1]);
        ExpressionFromCallFree(n.value.0, parent, tokens, index + 1, e1);
        ExtendedTranslates(tokens, index, e, e1, ExpressionFrom(n.value.0, parent, tokens, index + 1, e1));
      }
    } else {
      assert e.tokens[..|e.tokens|] == e.tokens;
      assert ExpressionFrom(ps, parent, tokens, index, e) == Ok((ps, e, index));
    }
  }

  /** One step of ExpressionFromCallFree: the entry appended for token index, followed by
      the entries of the rest. */
  lemma ExtendedTranslates(tokens: seq<Entity>, index: nat, e: Expr, e1: Expr, r: Result<(Parse, Expr, nat)>)
    requires index < |tokens| && !IsStop(tokens[index])
    requires |e1.tokens| == |e.tokens| + 1 && e1.tokens[..|e.tokens|] == e.tokens
    requires Translates(tokens[index], e1.tokens[|e.tokens|])
    requires PlainParsed(tokens, index + 1, e1, r)
    ensures PlainParsed(tokens, index, e, r)
  {
    if r.Ok? {
      var out := r.value.1.tokens;
      assert out[..|e.tokens|] == out[..|e1.tokens|][..|e.tokens|];
      assert out[|e.tokens|] == out[..|e1.tokens|][|e.tokens|];
    }
  }

  // ------------------------------------------------------------------ calls

  /** Starting `depth` levels deep at i, the parentheses first balance right after the `)`
      at j - 1. */
  predicate ClosesAt(tokens: seq<Entity>, i: nat, depth: int, j: nat)
    requires i <= j <= |tokens|
  {
    && i < j && tokens[j - 1].Type() == RParen
    && depth + Nesting(tokens[i..j], LParen, RParen) == 0
    && forall k :: i <= k < j ==> depth + Nesting(tokens[i..k], LParen, RParen) > 0
  }

  /** A `)` at depth 1 closes right after itself. */
  lemma ClosesHere(tokens: seq<Entity>, i: nat)
    requires i < |tokens| && tokens[i].Type() == RParen
    ensures ClosesAt(tokens, i, 1, i + 1)
  {
    assert tokens[i..i] == [];
    assert tokens[i..i + 1][1..] == [];
  }

  /** Closing from i + 1 at the depth after token i is closing from i. */
  lemma ClosesLater(tokens: seq<Entity>, i: nat, depth: int, j: nat)
    requires i < |tokens| && depth >= 1 && i + 1 <= j <= |tokens|
    requires ClosesAt(tokens, i + 1, depth + Step(tokens[i], LParen, RParen), j)
    ensures ClosesAt(tokens, i, depth, j)
  {
    NestingFrom(tokens, i, LParen, RParen);
    assert tokens[i..i] == [];
  }

  /** CallEnd finds the `)` that balances the parentheses open at i. */
  lemma {:induction false} CallEndCloses(tokens: seq<Entity>, i: nat, depth: int)
    requires i <= |tokens| && depth >= 1
    ensures var e := CallEnd(tokens, i, depth);
            e.Some? ==> i < e.value <= |tokens| && ClosesAt(tokens, i, depth, e.value)
    decreases |tokens| - i
  {
    if i < |tokens| {
      if tokens[i].Type() == RParen && depth == 1 {
        ClosesHere(tokens, i);
      } else {
        var d := depth + Step(tokens[i], LParen, RParen);
        assert CallEnd(tokens, i, depth) == CallEnd(tokens, i + 1, d);
        CallEndCloses(tokens, i + 1, d);
        var e := CallEnd(tokens, i + 1, d);
        if e.Some? {
          ClosesLater(tokens, i, depth, e.value);
        }
      }
    }
  }

  /** ProcessFunctionCall reads exactly up to and including the `)` that closes the call. */
  lemma CallFromMatches(ps: Parse, parent: Option<FunctionId>, f: FunctionId, tokens: seq<Entity>,
                        i: nat, depth: int, start: nat, c: Call)
    requires start <= i <= |tokens| && depth >= 1
    ensures var r := CallFrom(ps, parent, f, tokens, i, depth, start, c);
            r.Ok? ==> ClosesAt(tokens, i, depth, r.value.2)
  {
    CallEndCloses(tokens, i, depth);
  }

  // ------------------------------------------------------------------ call arguments

  /** The kinds of argument ProcessInternalExpression appends: inside a function, a lone
      name that is no global variable passes the caller's parameter proxy; a lone literal
      passes a fresh Const of its own; several tokens make an Expression resolved in the
      scope of the function being called. */
  lemma ArgumentCases(ps: Parse, parent: Option<FunctionId>, f: FunctionId, buffer: seq<Entity>, c: Call)
    ensures var r := ArgumentOf(ps, parent, f, buffer, c);
            |buffer| == 1 && buffer[0].Word? && buffer[0].content !in ps.variables && parent.Some? ==>
              var p := GetArgOperable(ps.st, parent.value, buffer[0].content);
              && (p.Err? ==> r == Err(KeyNotFound(buffer[0].content)))
              && (p.Ok? ==> r == Ok((ps, c.(arguments := c.arguments + [ProxyArgument(p.value)]))))
    ensures var r := ArgumentOf(ps, parent, f, buffer, c);
            |buffer| == 1 && buffer[0].Literal? ==>
              && r.Ok? && r.value.1.arguments == c.arguments + [ConstArgument(|ps.st.cells|, buffer[0].origin)]
              && |r.value.0.st.cells| == |ps.st.cells| + 1 && Read(r.value.0.st, |ps.st.cells|) == ConstNew(buffer[0].origin)
    ensures var r := ArgumentOf(ps, parent, f, buffer, c);
            |buffer| > 1 ==>
              var x := ProcessExpression(ps, Some(f), buffer, 0);
              && (r.Ok? <==> x.Ok?)
              && (r.Ok? ==> r.value == (x.value.0, c.(arguments := c.arguments + [ExpressionArgument(x.value.1)])))
  {
  }

  /** A call's argument tokens split at their commas: the argument begun so far, cur, ends
      at the next comma, and the rest is split the same way. */
  function SplitArgs(s: seq<Entity>, cur: seq<Entity>): (r: seq<seq<Entity>>)
    ensures |r| >= 1
    decreases |s|
  {
    if |s| == 0 then [cur]
    else if s[0].Type() == Comma then [cur] + SplitArgs(s[1..], [])
    else SplitArgs(s[1..], cur + [s[0]])
  }

  /** The arguments laid end to end. */
  function Concat(bs: seq<seq<Entity>>): seq<Entity>
    decreases |bs|
  {
    if |bs| == 0 then [] else bs[0] + Concat(bs[1..])
  }

  /** The tokens other than commas, in order. */
  function WithoutCommas(s: seq<Entity>): seq<Entity>
    decreases |s|
  {
    if |s| == 0 then [] else (if s[0].Type() == Comma then [] else [s[0]]) + WithoutCommas(s[1..])
  }

  /** The number of commas. */
  function Commas(s: seq<Entity>): nat
    decreases |s|
  {
    if |s| == 0 then 0 else (if s[0].Type() == Comma then 1 else 0) + Commas(s[1..])
  }

  /** Splitting makes one argument more than there are commas, loses no other token and
      keeps their order, and leaves no comma in an argument. */
  lemma {:induction false} SplitJoin(s: seq<Entity>, cur: seq<Entity>)
    requires forall k :: 0 <= k < |cur| ==> cur[k].Type() != Comma
    ensures |SplitArgs(s, cur)| == Commas(s) + 1
    ensures Concat(SplitArgs(s, cur)) == cur + WithoutCommas(s)
    ensures forall b: seq<Entity>, k :: b in SplitArgs(s, cur) && 0 <= k < |b| ==> b[k].Type() != Comma
    decreases |s|
  {
    if |s| == 0 {
      assert cur + WithoutCommas(s) == cur;
      assert Concat([cur]) == cur + Concat([]);
    } else if s[0].Type() == Comma {
      SplitJoin(s[1..], []);
      var rest := SplitArgs(s[1..], []);
      assert ([cur] + rest)[0] == cur && ([cur] + rest)[1..] == rest;
      assert Concat([cur] + rest) == cur + Concat(rest);
    } else {
      SplitJoin(s[1..], cur + [s[0]]);
      assert cur + WithoutCommas(s) == (cur + [s[0]]) + WithoutCommas(s[1..]);
    }
  }

  /** The arguments appended for each split argument in turn, threading the parse. */
  function ArgumentsOf(ps: Parse, parent: Option<FunctionId>, f: FunctionId, buffers: seq<seq<Entity>>, c: Call)
    : Result<(Parse, Call)>
    decreases |buffers|
  {
    if |buffers| == 0 then Ok((ps, c))
    else
      var a :- ArgumentOf(ps, parent, f, buffers[0], c);
      ArgumentsOf(a.0, parent, f, buffers[1..], a.1)
  }

  /** The call those arguments make, ending after the `)` at j. */
  function CallOfArgs(ps: Parse, parent: Option<FunctionId>, f: FunctionId, buffers: seq<seq<Entity>>, c: Call, j: nat)
    : Result<(Parse, Call, nat)>
  {
    var a :- ArgumentsOf(ps, parent, f, buffers, c);
    Ok((a.0, a.1, j + 1))
  }

  /** ProcessFunctionCall over an argument list with no parentheses inside: each stretch
      between the commas becomes one argument, in order, and the call ends after its `)`. */
  lemma CallArgumentsSplit(ps: Parse, parent: Option<FunctionId>, f: FunctionId, tokens: seq<Entity>,
                           start: nat, j: nat, c: Call)
    requires start <= j < |tokens| && tokens[j].Type() == RParen
    requires forall k :: start <= k < j ==> tokens[k].Type() != LParen && tokens[k].Type() != RParen
    ensures CallFrom(ps, parent, f, tokens, start, 1, start, c)
         == CallOfArgs(ps, parent, f, SplitArgs(tokens[start..j], []), c, j)
  {
    assert tokens[start..start] == [];
    CallFromSplits(ps, parent, f, tokens, start, start, j, c);
  }

  /** The general case of CallArgumentsSplit, from token i with the current argument begun
      at start. */
  lemma {:induction false} CallFromSplits(ps: Parse, parent: Option<FunctionId>, f: FunctionId, tokens: seq<Entity>,
                                          i: nat, start: nat, j: nat, c: Call)
    requires start <= i <= j < |tokens| && tokens[j].Type() == RParen
    requires forall k :: i <= k < j ==> tokens[k].Type() != LParen && tokens[k].Type() != RParen
    ensures CallFrom(ps, parent, f, tokens, i, 1, start, c)
         == CallOfArgs(ps, parent, f, SplitArgs(tokens[i..j], tokens[start..i]), c, j)
    decreases j - i, 1
  {
    if i == j {
      CallFromSplitsEnd(ps, parent, f, tokens, start, j, c);
    } else if tokens[i].Type() == Comma {
      CallFromSplitsComma(ps, parent, f, tokens, i, start, j, c);
    } else {
      CallFromSplitsOther(ps, parent, f, tokens, i, start, j, c);
    }
  }

  /** At the closing `)`, the argument begun at start is the last one. */
  lemma CallFromSplitsEnd(ps: Parse, parent: Option<FunctionId>, f: FunctionId, tokens: seq<Entity>,
                          start: nat, j: nat, c: Call)
    requires start <= j < |tokens| && tokens[j].Type() == RParen
    ensures CallFrom(ps, parent, f, tokens, j, 1, start, c)
         == CallOfArgs(ps, parent, f, SplitArgs(tokens[j..j], tokens[start..j]), c, j)
  {
    var cur := tokens[start..j];
    assert tokens[j..j] == [];
    assert SplitArgs(tokens[j..j], cur) == [cur];
    var a := ArgumentOf(ps, parent, f, cur, c);
    assert [cur][0] == cur && [cur][1..] == [];
    if a.Ok? {
      assert ArgumentsOf(ps, parent, f, [cur], c) == ArgumentsOf(a.value.0, parent, f, [], a.value.1);
    } else {
      assert ArgumentsOf(ps, parent, f, [cur], c) == Err(a.error);
    }
  }

  /** A comma at depth 1 ends the argument begun at start and begins the next one. */
  lemma CallFromSplitsComma(ps: Parse, parent: Option<FunctionId>, f: FunctionId, tokens: seq<Entity>,
                            i: nat, start: nat, j: nat, c: Call)
    requires start <= i < j < |tokens| && tokens[j].Type() == RParen && tokens[i].Type() == Comma
    requires forall k :: i <= k < j ==> tokens[k].Type() != LParen && tokens[k].Type() != RParen
    ensures CallFrom(ps, parent, f, tokens, i, 1, start, c)
         == CallOfArgs(ps, parent, f, SplitArgs(tokens[i..j], tokens[start..i]), c, j)
    decreases j - i, 0
  {
    var cur := tokens[start..i];
    var rest := SplitArgs(tokens[i + 1..j], []);
    assert SplitArgs(tokens[i..j], cur) == [cur] + rest by {
      assert tokens[i..j][0] == tokens[i] && tokens[i..j][1..] == tokens[i + 1..j];
    }
    var a := ArgumentOf(ps, parent, f, cur, c);
    assert ([cur] + rest)[0] == cur && ([cur] + rest)[1..] == rest;
    if a.Ok? {
      CallFromSplits(a.value.0, parent, f, tokens, i + 1, i + 1, j, a.value.1);
      assert tokens[i + 1..i + 1] == [];
      assert CallFrom(ps, parent, f, tokens, i, 1, start, c) == CallFrom(a.value.0, parent, f, tokens, i + 1, 1, i + 1, a.value.1);
      assert CallOfArgs(ps, parent, f, [cur] + rest, c, j) == CallOfArgs(a.value.0, parent, f, rest, a.value.1, j);
    } else {
      assert CallFrom(ps, parent, f, tokens, i, 1, start, c) == Err(a.error);
      assert CallOfArgs(ps, parent, f, [cur] + rest, c, j) == Err(a.error);
    }
  }

  /** Any other token joins the argument begun at start. */
  lemma CallFromSplitsOther(ps: Parse, parent: Option<FunctionId>, f: FunctionId, tokens: seq<Entity>,
                            i: nat, start: nat, j: nat, c: Call)
    requires start <= i < j < |tokens| && tokens[j].Type() == RParen && tokens[i].Type() != Comma
    requires forall k :: i <= k < j ==> tokens[k].Type() != LParen && tokens[k].Type() != RParen
    ensures CallFrom(ps, parent, f, tokens, i, 1, start, c)
         == CallOfArgs(ps, parent, f, SplitArgs(tokens[i..j], tokens[start..i]), c, j)
    decreases j - i, 0
  {
    CallFromSplits(ps, parent, f, tokens, i + 1, start, j, c);
    CallFromSkips(ps, parent, f, tokens, i, start, c);
    SplitArgsSkips(tokens, i, start, j);
  }

  /** A token that is neither a comma nor a parenthesis is passed over. */
  lemma CallFromSkips(ps: Parse, parent: Option<FunctionId>, f: FunctionId, tokens: seq<Entity>, i: nat, start: nat, c: Call)
    requires start <= i < |tokens| && tokens[i].Type() !in {Comma, LParen, RParen}
    ensures CallFrom(ps, parent, f, tokens, i, 1, start, c) == CallFrom(ps, parent, f, tokens, i + 1, 1, start, c)
  {
  }

  /** A token that is not a comma joins the current argument. */
  lemma SplitArgsSkips(tokens: seq<Entity>, i: nat, start: nat, j: nat)
    requires start <= i < j <= |tokens| && tokens[i].Type() != Comma
    ensures SplitArgs(tokens[i..j], tokens[start..i]) == SplitArgs(tokens[i + 1..j], tokens[start..i + 1])
  {
    assert tokens[i..j][0] == tokens[i] && tokens[i..j][1..] == tokens[i + 1..j];
    assert tokens[start..i] + [tokens[i]] == tokens[start..i + 1];
  }

  // ------------------------------------------------------------------ DEF

  /** The name a parameter token gives, "" for a token that is no identifier. */
  function NameOf(e: Entity): string {
    if e.Word? then e.content else ""
  }

  /** The parameters a DEF's tokens between its name and its `;` declare, in order: `&`
      makes the name after it a by-reference parameter. */
  function Signature(s: seq<Entity>): seq<(string, bool)>
    decreases |s|
  {
    if |s| == 0 then []
    else if s[0].Type() == Ref then
      if |s| == 1 then [] else [(NameOf(s[1]), true)] + Signature(s[2..])
    else [(NameOf(s[0]), false)] + Signature(s[1..])
  }

  /** The names and passing modes of an argument table. */
  function Modes(args: seq<Param>): (r: seq<(string, bool)>)
    ensures |r| == |args| && forall i :: 0 <= i < |args| ==> r[i] == (args[i].name, args[i].isReference)
  {
    seq(|args|, i requires 0 <= i < |args| => (args[i].name, args[i].isReference))
  }

  lemma ModesSnoc(args: seq<Param>, p: Param)
    ensures Modes(args + [p]) == Modes(args) + [(p.name, p.isReference)]
  {
    assert Modes(args + [p]) == Modes(args) + [(p.name, p.isReference)];
  }

  lemma SignatureByReference(tokens: seq<Entity>, k: nat, j: nat)
    requires k + 2 <= j <= |tokens| && tokens[k].Type() == Ref
    ensures Signature(tokens[k..j]) == [(NameOf(tokens[k + 1]), true)] + Signature(tokens[k + 2..j])
  {
    assert tokens[k..j][2..] == tokens[k + 2..j];
  }

  lemma SignatureByValue(tokens: seq<Entity>, k: nat, j: nat)
    requires k + 1 <= j <= |tokens| && tokens[k].Type() != Ref
    ensures Signature(tokens[k..j]) == [(NameOf(tokens[k]), false)] + Signature(tokens[k + 1..j])
  {
    assert tokens[k..j][1..] == tokens[k + 1..j];
  }

  /** AppendArg adds the new name and mode at the end of the table. */
  lemma AppendArgModes(st: State, f: FunctionId, name: Option<string>, isReference: bool)
    requires f < |st.functions| && AppendArg(st, f, name, isReference).Ok?
    ensures name.Some?
    ensures Modes(Arguments(AppendArg(st, f, name, isReference).value, f)) == Modes(Arguments(st, f)) + [(name.value, isReference)]
  {
    ModesSnoc(Arguments(st, f), Param(name.value, isReference, |st.cells|));
  }

  /** What the DEF parameter loop from k on leaves in f's argument table when it succeeds. */
  predicate ParametersRecorded(ps: Parse, f: FunctionId, tokens: seq<Entity>, k: nat, r: Result<(Parse, nat)>)
    requires k <= |tokens|
  {
    r.Ok? && r.value.1 <= |tokens| && k <= r.value.1 ==>
      Modes(Arguments(r.value.0.st, f)) == Modes(Arguments(ps.st, f)) + Signature(tokens[k..r.value.1])
  }

  /** One parameter of DEF, the name at n (n is k, or k + 1 after `&`): the table after it,
      and the rest of the loop. */
  lemma ParametersStep(ps: Parse, f: FunctionId, tokens: seq<Entity>, k: nat, n: nat, byRef: bool)
    requires k < |tokens| && f < |ps.st.functions| && tokens[k].Type() != Semicolon
    requires byRef == (tokens[k].Type() == Ref) && n == (if byRef then k + 1 else k)
    requires Parameters(ps, f, tokens, k).Ok?
    ensures n + 1 < |tokens| && AppendArg(ps.st, f, ContentOf(tokens[n]), byRef).Ok?
    ensures Parameters(ps, f, tokens, k) == Parameters(ps.(st := AppendArg(ps.st, f, ContentOf(tokens[n]), byRef).value), f, tokens, n + 1)
  {
    if byRef {
      ParametersByReference(ps, f, tokens, k, n, byRef);
    } else {
      ParametersByValue(ps, f, tokens, k, n, byRef);
    }
  }

  /** After `&`, the name that follows is a by-reference parameter. */
  lemma ParametersByReference(ps: Parse, f: FunctionId, tokens: seq<Entity>, k: nat, n: nat, byRef: bool)
    requires k < |tokens| && tokens[k].Type() == Ref && byRef && n == k + 1
    requires Parameters(ps, f, tokens, k).Ok?
    ensures n + 1 < |tokens| && AppendArg(ps.st, f, ContentOf(tokens[n]), byRef).Ok?
    ensures Parameters(ps, f, tokens, k) == Parameters(ps.(st := AppendArg(ps.st, f, ContentOf(tokens[n]), byRef).value), f, tokens, n + 1)
  {
  }

  /** A name not after `&` is a by-value parameter. */
  lemma ParametersByValue(ps: Parse, f: FunctionId, tokens: seq<Entity>, k: nat, n: nat, byRef: bool)
    requires k < |tokens| && tokens[k].Type() != Semicolon && tokens[k].Type() != Ref && !byRef && n == k
    requires Parameters(ps, f, tokens, k).Ok?
    ensures n + 1 < |tokens| && AppendArg(ps.st, f, ContentOf(tokens[n]), byRef).Ok?
    ensures Parameters(ps, f, tokens, k) == Parameters(ps.(st := AppendArg(ps.st, f, ContentOf(tokens[n]), byRef).value), f, tokens, n + 1)
  {
    var s1 := AppendArg(ps.st, f, ContentOf(tokens[k]), false);
    assert s1.Ok? && k + 1 < |tokens|;
  }

  /** DEF records its parameters in the order written, `&` marking by-reference ones. */
  lemma {:induction false} ParametersInOrder(ps: Parse, f: FunctionId, tokens: seq<Entity>, k: nat)
    requires k < |tokens| && f < |ps.st.functions|
    ensures ParametersRecorded(ps, f, tokens, k, Parameters(ps, f, tokens, k))
    decreases |tokens| - k
  {
    var r := Parameters(ps, f, tokens, k);
    if r.Ok? {
      var j := r.value.1;
      if tokens[k].Type() == Semicolon {
        assert tokens[k..j] == [];
      } else {
        var byRef := tokens[k].Type() == Ref;
        var n := if byRef then k + 1 else k;
        ParametersStep(ps, f, tokens, k, n, byRef);
        AppendArgModes(ps.st, f, ContentOf(tokens[n]), byRef);
        var ps1 := ps.(st := AppendArg(ps.st, f, ContentOf(tokens[n]), byRef).value);
        ParametersInOrder(ps1, f, tokens, n + 1);
        ParametersJoin(ps, ps1, f, tokens, k, n, byRef, r);
      }
    }
  }

  /** The arithmetic of one parameter: the table after it followed by the rest's. */
  lemma ParametersJoin(ps: Parse, ps1: Parse, f: FunctionId, tokens: seq<Entity>, k: nat, n: nat, byRef: bool,
                       r: Result<(Parse, nat)>)
    requires k < n + 1 < |tokens| && byRef == (tokens[k].Type() == Ref) && n == (if byRef then k + 1 else k)
    requires ContentOf(tokens[n]).Some?
    requires Modes(Arguments(ps1.st, f)) == Modes(Arguments(ps.st, f)) + [(ContentOf(tokens[n]).value, byRef)]
    requires r.Ok? && n + 1 <= r.value.1 <= |tokens|
    requires ParametersRecorded(ps1, f, tokens, n + 1, r)
    ensures ParametersRecorded(ps, f, tokens, k, r)
  {
    var j := r.value.1;
    if byRef { SignatureByReference(tokens, k, j); } else { SignatureByValue(tokens, k, j); }
  }

  // ------------------------------------------------------------------ jump targets

  /** A node's BREAK, CONTINUE and RETURN statements, at any depth, are bound to `ret` and to
      the innermost loop around them, `loop` outside any loop of the node. */
  predicate Bound(n: Node, ret: Returnable, loop: Option<LoopId>) {
    match n
    case ExpressionNode(_) => true
    case ReturnNode(r) => r == ret
    case BreakNode(t) => t == loop
    case ContinueNode(t) => t == loop
    case IfNode(_, b) => forall i :: 0 <= i < |b| ==> Bound(b[i], ret, loop)
    case WhileNode(id, _, b) => forall i :: 0 <= i < |b| ==> Bound(b[i], ret, Some(id))
    case ForNode(id, _, _, b) => forall i :: 0 <= i < |b| ==> Bound(b[i], ret, Some(id))
  }

  predicate AllBound(nodes: seq<Node>, ret: Returnable, loop: Option<LoopId>) {
    forall i :: 0 <= i < |nodes| ==> Bound(nodes[i], ret, loop)
  }

  /** The Script's statements return to the Script and a function's to that function; at
      their top level a BREAK or CONTINUE is bound to nothing. */
  predicate ProgramBound(prog: Program) {
    && AllBound(prog.body, ScriptReturnable, Option.None)
    && forall f :: 0 <= f < |prog.functions| ==> AllBound(prog.functions[f].body, FunctionReturnable(f), Option.None)
  }

  /** The contexts ProcessContainer is called with: the Script's and an IMP body's own
      targets, or any targets for the body of a statement. */
  predicate ContextOk(ctx: Context) {
    match ctx.sink
    case ScriptSink => ctx.returnable == ScriptReturnable && ctx.loop == Option.None
    case FunctionSink(f) => ctx.returnable == FunctionReturnable(f) && ctx.loop == Option.None
    case StatementSink => true
  }

  /** Appending a node bound to the context's targets keeps everything bound. */
  lemma EmitBound(ps: Parse, ctx: Context, local: seq<Node>, n: Node)
    requires Ready(ps, ctx, local) && Bound(n, ctx.returnable, ctx.loop)
    ensures Ready(Emit(ps, ctx.sink, local, n).0, ctx, Emit(ps, ctx.sink, local, n).1)
  {
  }

  /** DEF succeeds exactly when its name is an identifier not yet declared as a function
      and its parameter list parses up to a `;`. */
  lemma DefineSucceeds(ps: Parse, tokens: seq<Entity>, index: nat)
    requires index < |tokens|
    ensures Define(ps, tokens, index).Ok?
        <==> (index + 2 < |tokens| && Parameters(NewFunction(ps).0, |ps.st.functions|, tokens, index + 2).Ok? &&
              tokens[index + 1].Word? && tokens[index + 1].content !in ps.functionIds)
  {
  }

  /** DEF adds a function with an empty body. */
  lemma DefineBound(ps: Parse, tokens: seq<Entity>, index: nat)
    requires index < |tokens| && ProgramBound(ps.prog)
    ensures Define(ps, tokens, index).Ok? ==> ProgramBound(Define(ps, tokens, index).value.0.prog)
  {
  }

  /** What a turn of ProcessContainer keeps: everything made so far stays bound. */
  predicate StepBound(r: Result<(Parse, seq<Node>, nat)>, ctx: Context) {
    r.Ok? ==> ProgramBound(r.value.0.prog) && AllBound(r.value.1, ctx.returnable, ctx.loop)
  }

  /** What ProcessContainer keeps: everything made so far stays bound. */
  predicate ContainerBound(r: Result<(Parse, seq<Node>)>, ctx: Context) {
    r.Ok? ==> ProgramBound(r.value.0.prog) && AllBound(r.value.1, ctx.returnable, ctx.loop)
  }

  /** The state ProcessContainer may be called in: what was made so far is bound. */
  predicate Ready(ps: Parse, ctx: Context, local: seq<Node>) {
    ContextOk(ctx) && ProgramBound(ps.prog) && AllBound(local, ctx.returnable, ctx.loop)
  }

  /** ProcessContainer binds every jump it creates to the targets it is given, and never
      rebinds one made before. */
  lemma {:induction false} ContainerFromBound(ps: Parse, tokens: seq<Entity>, index: nat, ctx: Context, local: seq<Node>)
    requires index <= |tokens| + 1 && Ready(ps, ctx, local)
    ensures ContainerBound(ContainerFrom(ps, tokens, index, ctx, local), ctx)
    decreases |tokens|, |tokens| + 1 - index, 3
  {
    if index < |tokens| {
      StatementBound(ps, tokens, index, ctx, local);
      ContainerFromStep(ps, tokens, index, ctx, local);
      var s := StatementAt(ps, tokens, index, ctx, local);
      if s.Ok? {
        ContainerFromBound(s.value.0, tokens, s.value.2 + 1, ctx, s.value.1);
      }
    }
  }

  /** One turn of ProcessContainer's loop: a failing statement fails the loop, and otherwise
      the next turn starts after the token the statement stopped at. */
  predicate Continues(ps: Parse, tokens: seq<Entity>, index: nat, ctx: Context, local: seq<Node>)
    requires index < |tokens|
  {
    var s := StatementAt(ps, tokens, index, ctx, local);
    && (s.Err? ==> ContainerFrom(ps, tokens, index, ctx, local).Err?)
    && (s.Ok? ==> ContainerFrom(ps, tokens, index, ctx, local) == ContainerFrom(s.value.0, tokens, s.value.2 + 1, ctx, s.value.1))
  }

  lemma ContainerFromStep(ps: Parse, tokens: seq<Entity>, index: nat, ctx: Context, local: seq<Node>)
    requires index < |tokens|
    ensures Continues(ps, tokens, index, ctx, local)
  {
    var t := tokens[index].Type();
    if t == EntityType.If || t == EntityType.While {
      ContinuesConditional(ps, tokens, index, ctx, local);
    } else if t == EntityType.For {
      ContinuesFor(ps, tokens, index, ctx, local);
    } else {
      ContinuesOther(ps, tokens, index, ctx, local);
    }
  }

  lemma ContinuesConditional(ps: Parse, tokens: seq<Entity>, index: nat, ctx: Context, local: seq<Node>)
    requires index < |tokens| && tokens[index].Type() in {EntityType.If, EntityType.While}
    ensures Continues(ps, tokens, index, ctx, local)
  {
  }

  lemma ContinuesFor(ps: Parse, tokens: seq<Entity>, index: nat, ctx: Context, local: seq<Node>)
    requires index < |tokens| && tokens[index].Type() == EntityType.For
    ensures Continues(ps, tokens, index, ctx, local)
  {
  }

  lemma ContinuesOther(ps: Parse, tokens: seq<Entity>, index: nat, ctx: Context, local: seq<Node>)
    requires index < |tokens| && tokens[index].Type() !in {EntityType.If, EntityType.While, EntityType.For}
    ensures Continues(ps, tokens, index, ctx, local)
  {
  }

  /** One statement of ProcessContainer is bound to the context's targets. */
  lemma {:induction false} StatementBound(ps: Parse, tokens: seq<Entity>, index: nat, ctx: Context, local: seq<Node>)
    requires index < |tokens|
    requires Ready(ps, ctx, local)
    ensures StepBound(StatementAt(ps, tokens, index, ctx, local), ctx)
    decreases |tokens|, |tokens| + 1 - index, 2
  {
    var t := tokens[index].Type();
    if t == Undefined {
      var x := ProcessExpression(ps, ScopeOf(ctx.returnable), tokens, index);
      if x.Ok? {
        EmitBound(x.value.0, ctx, local, ExpressionNode(x.value.1));
      }
    } else if t == Def {
      DefineBound(ps, tokens, index);
    } else if t == Imp {
      ImplementBound(ps, tokens, index, ctx, local);
    } else if t == EntityType.If || t == EntityType.While {
      ConditionalBound(ps, tokens, index, ctx, local);
    } else if t == EntityType.For {
      ForLoopBound(ps, tokens, index, ctx, local);
    } else if t == Return {
      EmitBound(ps, ctx, local, ReturnNode(ctx.returnable));
    } else if t == Break {
      EmitBound(ps, ctx, local, BreakNode(ctx.loop));
    } else if t == Continue {
      EmitBound(ps, ctx, local, ContinueNode(ctx.loop));
    }
  }

  /** An IMP body is bound to its own function and to no loop. */
  lemma {:induction false} ImplementBound(ps: Parse, tokens: seq<Entity>, index: nat, ctx: Context, local: seq<Node>)
    requires index < |tokens|
    requires ProgramBound(ps.prog) && AllBound(local, ctx.returnable, ctx.loop)
    ensures StepBound(Implement(ps, tokens, index, ctx, local), ctx)
    decreases |tokens|, |tokens| + 1 - index, 0
  {
    if index + 1 < |tokens| {
      var name := ContentOf(tokens[index + 1]);
      if name.Some? && name.value in ps.functionIds {
        var f := ps.functionIds[name.value];
        var body := Collect(tokens, index + 2);
        if body.Ok? {
          ContainerFromBound(ps, body.value.0, 0, Context(FunctionSink(f), Some(f), FunctionReturnable(f), Option.None), []);
        }
      }
    }
  }

  /** An IF body keeps the targets around it; a WHILE body has the WHILE as its loop. */
  lemma {:induction false} ConditionalBound(ps: Parse, tokens: seq<Entity>, index: nat, ctx: Context, local: seq<Node>)
    requires index < |tokens|
    requires Ready(ps, ctx, local)
    ensures StepBound(Conditional(ps, tokens, index, ctx, local), ctx)
    decreases |tokens|, |tokens| + 1 - index, 0
  {
    var x := ProcessExpression(ps, ScopeOf(ctx.returnable), tokens, index + 1);
    if x.Ok? {
      var body := Collect(tokens, x.value.2);
      if body.Ok? {
        if tokens[index].Type() == EntityType.If {
          var ictx := ctx.(sink := StatementSink, containerFunction := Option.None);
          ContainerFromBound(x.value.0, body.value.0, 0, ictx, []);
          var inner := ContainerFrom(x.value.0, body.value.0, 0, ictx, []);
          if inner.Ok? {
            EmitBound(inner.value.0, ctx, local, IfNode(x.value.1, inner.value.1));
          }
        } else {
          var (ps1, id) := NewLoop(x.value.0);
          var ictx := Context(StatementSink, Option.None, ctx.returnable, Some(id));
          ContainerFromBound(ps1, body.value.0, 0, ictx, []);
          var inner := ContainerFrom(ps1, body.value.0, 0, ictx, []);
          if inner.Ok? {
            EmitBound(inner.value.0, ctx, local, WhileNode(id, x.value.1, inner.value.1));
          }
        }
      }
    }
  }

  /** A FOR body has the FOR as its loop. */
  lemma {:induction false} ForLoopBound(ps: Parse, tokens: seq<Entity>, index: nat, ctx: Context, local: seq<Node>)
    requires index < |tokens|
    requires Ready(ps, ctx, local)
    ensures StepBound(ForLoop(ps, tokens, index, ctx, local), ctx)
    decreases |tokens|, |tokens| + 1 - index, 1
  {
    var v := ForVariables(ps, tokens, index + 1, ctx.containerFunction, []);
    if v.Ok? {
      ForRestBound(v.value.0, tokens, index, v.value.2, v.value.1, ctx, local);
    }
  }

  lemma {:induction false} ForRestBound(ps: Parse, tokens: seq<Entity>, index: nat, at: nat, variables: seq<Ref>,
                                        ctx: Context, local: seq<Node>)
    requires index < at < |tokens|
    requires Ready(ps, ctx, local)
    ensures StepBound(ForRest(ps, tokens, index, at, variables, ctx, local), ctx)
    decreases |tokens|, |tokens| + 1 - index, 0
  {
    var x := ProcessExpression(ps, ScopeOf(ctx.returnable), tokens, at + 1);
    if x.Ok? {
      var body := Collect(tokens, x.value.2);
      if body.Ok? {
        var (ps1, id) := NewLoop(x.value.0);
        var ictx := Context(StatementSink, Option.None, ctx.returnable, Some(id));
        ContainerFromBound(ps1, body.value.0, 0, ictx, []);
        var inner := ContainerFrom(ps1, body.value.0, 0, ictx, []);
        if inner.Ok? {
          EmitBound(inner.value.0, ctx, local, ForNode(id, variables, x.value.1, inner.value.1));
        }
      }
    }
  }

  /** After LoadFromSource, every jump of the Script and of its functions is bound as
      ProgramBound says, provided it was before. */
  lemma LoadFromSourceBound(ps: Parse, fm: Numerics.FloatModel, source: string)
    requires ProgramBound(ps.prog)
    ensures LoadFromSource(ps, fm, source).Ok? ==> ProgramBound(LoadFromSource(ps, fm, source).value.prog)
  {
    var tokens := Lexer.Lex(fm, source);
    if tokens.Ok? {
      ContainerFromBound(ps, tokens.value, 0, TopContext(), []);
    }
  }
}
