/** TokenUtil: the two token maps, the operator test, the word classifier and the character
    loop that turns source text into tokens. `Scan` is the loop's specification, one source
    position at a time; `Tokenize` is the loop as written, proved equal to it. */
module Lexer {
  import opened Wrappers
  import opened Numerics
  import opened Entities

  /** SingleTokenMap: the fifteen one-character symbols. */
  function SingleToken(c: char): (r: Option<EntityType>)
    ensures r.Some? ==> r.value.Code() in {4, 5, 6, 10, 11, 18, 19, 20, 21, 22, 29, 30, 31, 32, 36}
  {
    match c
    case '=' => Some(EntityType.Equal)
    case '*' => Some(Mul)
    case '/' => Some(Div)
    case '%' => Some(Percent)
    case '+' => Some(Plus)
    case '-' => Some(Minus)
    case '>' => Some(Greater)
    case '<' => Some(Less)
    case '(' => Some(LParen)
    case ')' => Some(RParen)
    case '{' => Some(BeginBlock)
    case '}' => Some(EndBlock)
    case ';' => Some(Semicolon)
    case ',' => Some(Comma)
    case '&' => Some(Ref)
    case _ => Option.None
  }

  /** IsSingleToken: whether c is in SingleTokenMap, and its tag (None when it is not). */
  function IsSingleToken(c: char): (r: (bool, EntityType))
    ensures r.0 <==> SingleToken(c).Some?
    ensures r.0 ==> SingleToken(c) == Some(r.1)
    ensures !r.0 ==> r.1 == EntityType.None
  {
    var t := SingleToken(c);
    if t.Some? then (true, t.value) else (false, EntityType.None)
  }

  /** ReservedTokenMap: exact, case-sensitive spellings. */
  function ReservedToken(w: string): Option<EntityType> {
    if w == "AND" then Some(And)
    else if w == "OR" then Some(Or)
    else if w == "IF" then Some(If)
    else if w == "WHILE" then Some(While)
    else if w == "DEF" then Some(Def)
    else if w == "IMP" then Some(Imp)
    else if w == "FOR" then Some(For)
    else if w == "IN" then Some(In)
    else if w == "BREAK" then Some(Break)
    else if w == "CONTINUE" then Some(Continue)
    else if w == "RETURN" then Some(Return)
    else Option.None
  }

  /** IsOperator: the tag's code, read as an unsigned 32-bit integer, lies in 6..24. */
  predicate IsOperator(t: EntityType) {
    6 <= t.Code() % 0x1_0000_0000 <= 24
  }

  /** ParseToken: Boolean first, then Int64, then Double, then a reserved word, otherwise an
      identifier. */
  function ParseToken(fm: FloatModel, w: string): (r: Entity)
    ensures r.Word? ==> r.content == w && ReservedToken(w).None?
    ensures r.Token? ==> ReservedToken(w) == Some(r.tokenType)
  {
    var b := ParseBool(w);
    if b.Some? then Literal(BooleanOrigin(b.value))
    else
      var i := ParseInt64(w);
      if i.Some? then Literal(IntegerOrigin(i.value))
      else
        var f := fm.parse(w);
        if f.Some? then Literal(FloatingPointOrigin(f.value))
        else
          var t := ReservedToken(w);
          if t.Some? then Token(t.value) else Word(w)
  }

  /** ParseToken under a given Double parser, as a function value: the scanner below is
      stated for any word classifier and applied to this one. */
  function Classifier(fm: FloatModel): string -> Entity {
    w => ParseToken(fm, w)
  }

  /** What the loop emits for the word collected so far: nothing for an empty word. */
  function Emit(parse: string -> Entity, word: string): seq<Entity> {
    if |word| > 0 then [parse(word)] else []
  }

  /** The compound tag for a symbol followed by '='; the other symbols have none. */
  function Compound(t: EntityType): Option<EntityType> {
    match t
    case Equal => Some(EqualEqual)
    case Less => Some(LEqual)
    case Greater => Some(GEqual)
    case Plus => Some(PlusEqual)
    case Minus => Some(MinusEqual)
    case Mul => Some(MulEqual)
    case Div => Some(DivEqual)
    case _ => Option.None
  }

  /** What a symbol followed by '=' emits: its compound token, or nothing. */
  function CompoundTokens(t: EntityType): seq<Entity> {
    var c := Compound(t);
    if c.Some? then [Token(c.value)] else []
  }

  /** The position of the first '\n' or '\r' at or after j; reading past the end of the text
      is an IndexOutOfRange. */
  function LineEnd(src: string, j: nat): (r: Result<nat>)
    ensures r.Ok? ==> j <= r.value < |src| && src[r.value] in {'\n', '\r'}
    ensures r.Ok? ==> forall k :: j <= k < r.value ==> src[k] !in {'\n', '\r'}
    ensures r.Err? ==> r.error == IndexOutOfRange && forall k :: j <= k < |src| ==> src[k] !in {'\n', '\r'}
    decreases |src| - j
  {
    if j >= |src| then Err(IndexOutOfRange)
    else if src[j] == '\n' || src[j] == '\r' then Ok(j)
    else LineEnd(src, j + 1)
  }

  /** The position of the first '"' at or after j, or IndexOutOfRange. */
  function QuoteEnd(src: string, j: nat): (r: Result<nat>)
    ensures r.Ok? ==> j <= r.value < |src| && src[r.value] == '"'
    ensures r.Ok? ==> forall k :: j <= k < r.value ==> src[k] != '"'
    ensures r.Err? ==> r.error == IndexOutOfRange && forall k :: j <= k < |src| ==> src[k] != '"'
    decreases |src| - j
  {
    if j >= |src| then Err(IndexOutOfRange)
    else if src[j] == '"' then Ok(j)
    else QuoteEnd(src, j + 1)
  }

  /** The state of the tokenizer loop: the index, the pending StringBuilder contents and
      the tokens emitted so far. */
  datatype Scanner = Scanner(index: nat, word: string, tokens: seq<Entity>)

  /** One pass of the loop body at `index`, which is inside the text. */
  function Step(parse: string -> Entity, src: string, index: nat, word: string, acc: seq<Entity>): (r: Result<Scanner>)
    requires index < |src|
    ensures r.Ok? ==> index < r.value.index <= |src|
  {
    var sym := src[index];
    if sym == '#' then
      // the word is kept; the loop's own increment skips the line end
      var e :- LineEnd(src, index + 1);
      Ok(Scanner(e + 1, word, acc))
    else if sym == ' ' then
      Ok(Scanner(index + 1, "", acc + Emit(parse, word)))
    else if SingleToken(sym).Some? then
      var t1 := SingleToken(sym).value;
      if index < |src| - 1 && src[index + 1] == '=' then
        Ok(Scanner(index + 2, "", acc + Emit(parse, word) + CompoundTokens(t1)))
      else
        Ok(Scanner(index + 1, "", acc + Emit(parse, word) + [Token(t1)]))
    else if sym == '"' then
      // the pending word becomes the prefix of the literal
      var e :- QuoteEnd(src, index + 1);
      Ok(Scanner(e + 1, "", acc + [Literal(StringOrigin(Some(word + src[index + 1..e])))]))
    else if !IsControl(sym) then
      Ok(Scanner(index + 1, word + [sym], acc))
    else
      Ok(Scanner(index + 1, word, acc))
  }

  /** The tokenizer loop from position `index`, with `word` pending and `acc` emitted. */
  function Scan(parse: string -> Entity, src: string, index: nat, word: string, acc: seq<Entity>): Result<seq<Entity>>
    decreases |src| - index
  {
    if index >= |src| then Ok(acc + Emit(parse, word))
    else
      var next :- Step(parse, src, index, word, acc);
      Scan(parse, src, next.index, next.word, next.tokens)
  }

  /** Tokenize, as a function of the source text. */
  function Lex(fm: FloatModel, src: string): Result<seq<Entity>> {
    Scan(Classifier(fm), src, 0, "", [])
  }

  /** Tokenize as written: an index loop over the text with a StringBuilder; the body of
      the loop is LoopBody. */
  method Tokenize(fm: FloatModel, source: string) returns (r: Result<seq<Entity>>)
    ensures r == Lex(fm, source)
  {
    var builder := "";
    var rawTokenList: seq<Entity> := [];
    var index := 0;
    while index < |source|
      invariant 0 <= index <= |source|
      invariant Scan(Classifier(fm), source, index, builder, rawTokenList) == Lex(fm, source)
      decreases |source| - index
    {
      var next := LoopBody(fm, source, index, builder, rawTokenList);
      if next.Err? {
        return Err(next.error);
      }
      index, builder, rawTokenList := next.value.index, next.value.word, next.value.tokens;
    }
    ghost var acc := rawTokenList;
    if |builder| > 0 {
      rawTokenList := rawTokenList + [ParseToken(fm, builder)];
    }
    assert rawTokenList == acc + Emit(Classifier(fm), builder);
    r := Ok(rawTokenList);
  }

  /** One pass of Tokenize's loop body, with its in-loop jumps (`continue` and the index
      advanced inside the body) as early returns of the next loop state. */
  method LoopBody(fm: FloatModel, source: string, index: nat, builder: string, rawTokenList: seq<Entity>)
    returns (r: Result<Scanner>)
    requires index < |source|
    ensures r == Step(Classifier(fm), source, index, builder, rawTokenList)
  {
    var sym := source[index];
    var tokenStr := builder;
    if sym == '#' {
      var lineEnd := SkipComment(source, index);
      if lineEnd.Err? {
        return Err(lineEnd.error);
      }
      return Ok(Scanner(lineEnd.value + 1, builder, rawTokenList));
    }
    if sym == ' ' {
      var tokens := rawTokenList;
      if |tokenStr| > 0 {
        tokens := tokens + [ParseToken(fm, tokenStr)];
      }
      assert tokens == rawTokenList + Emit(Classifier(fm), tokenStr);
      return Ok(Scanner(index + 1, "", tokens));
    }
    var (isSingle, type1) := IsSingleToken(sym);
    if isSingle {
      var tokens := rawTokenList;
      if |tokenStr| > 0 {
        tokens := tokens + [ParseToken(fm, tokenStr)];
      }
      assert tokens == rawTokenList + Emit(Classifier(fm), tokenStr);
      if index < |source| - 1 {
        var nextSym := source[index + 1];
        var (nextIsSingle, type2) := IsSingleToken(nextSym);
        if nextIsSingle && type2 == EntityType.Equal {
          assert nextSym == '=';
          ghost var emitted := tokens;
          // the switch on type1: the other symbols emit nothing
          var compound := Compound(type1);
          if compound.Some? {
            tokens := tokens + [Token(compound.value)];
          }
          assert tokens == emitted + CompoundTokens(type1);
          return Ok(Scanner(index + 2, "", tokens));
        }
      }
      return Ok(Scanner(index + 1, "", tokens + [Token(type1)]));
    }
    if sym == '"' {
      var quoteEnd := ReadQuoted(source, index);
      if quoteEnd.Err? {
        return Err(quoteEnd.error);
      }
      var text := builder + quoteEnd.value.1;
      return Ok(Scanner(quoteEnd.value.0 + 1, "", rawTokenList + [Literal(StringOrigin(Some(text)))]));
    }
    if !IsControl(sym) {
      return Ok(Scanner(index + 1, builder + [sym], rawTokenList));
    }
    return Ok(Scanner(index + 1, builder, rawTokenList));
  }

  /** The comment loop: from the '#' at `index`, advance to the next '\n' or '\r'. */
  method SkipComment(source: string, index: nat) returns (r: Result<nat>)
    requires index < |source|
    ensures r == LineEnd(source, index + 1)
  {
    var i := index;
    if i + 1 >= |source| {
      return Err(IndexOutOfRange);
    }
    i := i + 1;
    var sym := source[i];
    while sym != '\n' && sym != '\r'
      invariant index < i < |source| && sym == source[i]
      invariant LineEnd(source, index + 1) == LineEnd(source, i)
      decreases |source| - i
    {
      if i + 1 >= |source| {
        return Err(IndexOutOfRange);
      }
      i := i + 1;
      sym := source[i];
    }
    r := Ok(i);
  }

  /** The string-literal loop: from the '"' at `index`, collect the raw characters up to the
      closing quote; returns its position and the characters. */
  method ReadQuoted(source: string, index: nat) returns (r: Result<(nat, string)>)
    requires index < |source|
    ensures r.Err? <==> QuoteEnd(source, index + 1).Err?
    ensures r.Err? ==> r.error == IndexOutOfRange
    ensures r.Ok? ==> r.value.0 == QuoteEnd(source, index + 1).value
    ensures r.Ok? ==> r.value.1 == source[index + 1..r.value.0]
  {
    var i := index + 1;
    var text := "";
    while i < |source| && source[i] != '"'
      invariant index + 1 <= i <= |source|
      invariant text == source[index + 1..i]
      invariant QuoteEnd(source, index + 1) == QuoteEnd(source, i)
      decreases |source| - i
    {
      text := text + [source[i]];
      i := i + 1;
    }
    if i >= |source| {
      return Err(IndexOutOfRange);
    }
    r := Ok((i, text));
  }

  // One step of Scan for each branch of the loop.

  lemma ScanComment(parse: string -> Entity, src: string, i: nat, word: string, acc: seq<Entity>, e: nat)
    requires i < |src| && src[i] == '#' && LineEnd(src, i + 1) == Ok(e)
    ensures Scan(parse, src, i, word, acc) == Scan(parse, src, e + 1, word, acc)
  {
  }

  lemma ScanCommentUnterminated(parse: string -> Entity, src: string, i: nat, word: string, acc: seq<Entity>)
    requires i < |src| && src[i] == '#' && LineEnd(src, i + 1).Err?
    ensures Scan(parse, src, i, word, acc) == Err(IndexOutOfRange)
  {
  }

  lemma ScanCompound(parse: string -> Entity, src: string, i: nat, word: string, acc: seq<Entity>)
    requires i + 1 < |src| && SingleToken(src[i]).Some? && src[i + 1] == '='
    requires src[i] != '#' && src[i] != ' '
    ensures Scan(parse, src, i, word, acc) ==
              Scan(parse, src, i + 2, "", acc + Emit(parse, word) + CompoundTokens(SingleToken(src[i]).value))
  {
  }

  lemma ScanSymbol(parse: string -> Entity, src: string, i: nat, word: string, acc: seq<Entity>)
    requires i < |src| && SingleToken(src[i]).Some? && (i + 1 < |src| ==> src[i + 1] != '=')
    requires src[i] != '#' && src[i] != ' '
    ensures Scan(parse, src, i, word, acc) ==
              Scan(parse, src, i + 1, "", acc + Emit(parse, word) + [Token(SingleToken(src[i]).value)])
  {
  }

  lemma ScanQuote(parse: string -> Entity, src: string, i: nat, word: string, acc: seq<Entity>, e: nat)
    requires i < |src| && src[i] == '"' && QuoteEnd(src, i + 1) == Ok(e)
    ensures Scan(parse, src, i, word, acc) ==
              Scan(parse, src, e + 1, "", acc + [Literal(StringOrigin(Some(word + src[i + 1..e])))])
  {
  }

  lemma ScanQuoteUnterminated(parse: string -> Entity, src: string, i: nat, word: string, acc: seq<Entity>)
    requires i < |src| && src[i] == '"' && QuoteEnd(src, i + 1).Err?
    ensures Scan(parse, src, i, word, acc) == Err(IndexOutOfRange)
  {
  }

  lemma ScanSpace(parse: string -> Entity, src: string, i: nat, word: string, acc: seq<Entity>)
    requires i < |src| && src[i] == ' '
    ensures Scan(parse, src, i, word, acc) == Scan(parse, src, i + 1, "", acc + Emit(parse, word))
  {
  }

  lemma ScanChar(parse: string -> Entity, src: string, i: nat, word: string, acc: seq<Entity>)
    requires i < |src| && src[i] !in {'#', ' ', '"'} && SingleToken(src[i]).None?
    ensures Scan(parse, src, i, word, acc) ==
              Scan(parse, src, i + 1, if IsControl(src[i]) then word else word + [src[i]], acc)
  {
  }

  lemma ScanEnd(parse: string -> Entity, src: string, i: nat, word: string, acc: seq<Entity>)
    requires i >= |src|
    ensures Scan(parse, src, i, word, acc) == Ok(acc + Emit(parse, word))
  {
  }
}
