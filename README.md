# TucanScript core in Dafny

This project models the core of TucanScript.Core, a small tree-walking interpreter written in C#, and proves properties of the model. The model has four parts:

- the lexer (`TokenUtil`), which turns source text into entities;
- the runtime value (`Operable`), with its coercing operators, and its two subclasses `Const` (a literal that can restore its origin) and `OperableClone` (a proxy that pulls from and pushes to a source object);
- the parser (`Script.ProcessContainer` and its helpers), which builds a tree of statements and expressions while it fills the script's variable and function dictionaries;
- the execution engine: `Expression.Execute` (shunting-yard, then postfix evaluation), `FunctionCall`, `Function`, `If`, `While`, `For`, `Break`, `Continue`, `Return` and `Script.Execute`/`Reset`.

Runtime objects live in a store of cells (`Store.State`), because the interpreter relies on aliasing:

- expression tokens are proxies of variable objects;
- FOR writes its loop variables in place;
- a call binds a parameter proxy to the caller's object;
- a call returns the same result object every time.

Each cell holds the whole `Operable` record: the tag, all four payloads and the nested elements. The record is kept whole because the code reads payloads that the tag does not select. A proxy's source is a map from cell to cell. Function argument tables and loop flags are part of the store too.

Files, by module:

| file | module | contents |
|---|---|---|
| wrappers.dfy | Wrappers | `Option` (a nullable reference), `Result` and `Error` (one constructor per exception the core can raise) |
| numerics.dfy | Numerics | Int64 wrap-around, C# truncating `/` and `%`, invariant-culture Int64 and Boolean text and parsing, `Float` as an opaque payload with its operations supplied as a `FloatModel` parameter |
| entities.dfy | Entities | `EntityType` with its numeric codes, token entities, literal origins |
| operable.dfy | Operables | the `Operable` record and every operator, as functions from the receiver's state to its new state; the copy and indexer loops and `ToString`'s builder loop as methods proved equal to them |
| lexer.dfy | Lexer | the token maps, `ParseToken`, and `Tokenize` as a loop method proved equal to a recursive scanner |
| syntax.dfy | Syntax | the tree the parser builds |
| store.dfy | Store | cells, proxies, `Const` reset, the function argument table, loop flags |
| execution.dfy | Execution | expression evaluation and statement execution, bounded by fuel |
| parser.dfy | Parser | ProcessContainer and its helpers as functions of the parse state and a token position |
| script.dfy | Scripts | class `Script`, whose fields are the store, `_variables`, `_functions` and the statement lists, and whose methods are proved to leave it in the state the Parser and Execution functions compute |
| *_properties.dfy | … | lemmas about the above |

## Model

| member | source | states |
|---|---|---|
| Entities.CodeRoundTrip | EntityType.cs:3-58 | every tag's numeric code decodes back to that tag |
| Entities.CodeInjective | EntityType.cs:3-58 | two tags have the same numeric code exactly when they are the same tag |
| Numerics.Wrap64 | Operable.cs:133-135 | the unchecked Int64 result of an exact sum is an Int64, and equals the exact sum when that is in range |
| Numerics.Wrap64Congruent | Operable.cs:133-135 | the wrapped result is the unique Int64 congruent to the exact result modulo 2^64 |
| Numerics.TruncDivision | Operable.cs:261-267 | C# `/` and `%` on Int64: x equals quotient times y plus remainder, the remainder is smaller than the divisor in magnitude and takes the dividend's sign, and the quotient rounds towards zero |
| Numerics.TruncDivisionInRange | Operable.cs:302-308 | the remainder of two Int64 values is an Int64, and the quotient is one exactly unless the operands are Int64.MinValue and -1 |
| Numerics.Digits | Operable.cs:725-726 | the decimal text of a natural number is non-empty and made of digits |
| Numerics.DigitsValueOfDigits | Operable.cs:725-726 | reading back the digits of n gives n |
| Numerics.ParseDecimalText | TokenUtil.cs:172-173 | Int64.TryParse accepts the text Int64.ToString produces and returns the same number |
| Numerics.DecimalText | Operable.cs:725-726 | definition: Int64.ToString, a minus sign for a negative number and then its digits; properties in Numerics.Digits and ParseDecimalText |
| Numerics.ParseInt64 | TokenUtil.cs:172-173 | definition: Int64.TryParse with the integer style: white space, an optional sign, digits, and a value in range; properties in Numerics.ParseDecimalText and LexerProperties.ParseTokenDecimal |
| Numerics.ParseBool | TokenUtil.cs:169-170 | definition: Boolean.TryParse, "true" or "false" in any ASCII case after trimming; properties in Numerics.ParseBoolText and LexerProperties.ParseTokenBoolean |
| Numerics.ParseBoolText | TokenUtil.cs:169-170 | Boolean.TryParse accepts "True" and "False" and returns the value they spell |
| Numerics.TrimNothing | TokenUtil.cs:169-170 | text that starts and ends with a character that is not white space is trimmed to itself |
| Numerics.TrimStart | TokenUtil.cs:169-170 | trimming leading white space never lengthens the text |
| Numerics.TrimStartDrops | TokenUtil.cs:169-170 | the trimmed text is a suffix of the text, everything dropped in front of it is white space, and it does not start with white space |
| Numerics.TrimEnd | TokenUtil.cs:169-170 | trimming trailing white space never lengthens the text |
| Numerics.TrimEndDrops | TokenUtil.cs:169-170 | the trimmed text is a prefix of the text, everything dropped after it is white space, and it does not end with white space |
| Numerics.WithoutDecoration | TokenUtil.cs:175-179 | removing sign and separator characters never lengthens the text |
| Numerics.WithoutDecorationFilters | TokenUtil.cs:175-179 | the result holds no sign or separator character, and text without them comes back unchanged |
| Numerics.WithoutDecorationConcat | TokenUtil.cs:175-179 | removing the decoration of two joined texts is removing it from each and joining the results |
| Lexer.SingleToken | TokenUtil.cs:17-34 | the single-character map yields only the fifteen one-character symbol tags |
| Lexer.IsSingleToken | TokenUtil.cs:58-65 | reports true exactly for a mapped character, with its tag; otherwise the tag is None |
| Lexer.ParseToken | TokenUtil.cs:167-184 | an identifier keeps the word's exact text and is never a reserved word; a keyword token is the reserved map's entry for the word |
| Lexer.LineEnd | TokenUtil.cs:79-87 | a comment ends at the first '\n' or '\r'; with none left, reading past the end fails with IndexOutOfRange |
| Lexer.QuoteEnd | TokenUtil.cs:144-151 | a string literal ends at the next '"'; with none left, reading past the end fails with IndexOutOfRange |
| Lexer.Step | TokenUtil.cs:72-158 | one turn of the character loop moves the index forward and never past the end |
| Lexer.Tokenize | TokenUtil.cs:67-165 | the character loop with its builder and token list computes exactly the recursive scanner's result |
| Lexer.LoopBody | TokenUtil.cs:74-158 | one turn of the loop as written computes the scanner's step |
| Lexer.SkipComment | TokenUtil.cs:79-87 | the comment-skipping inner loop stops at the line end the scanner finds |
| Lexer.ReadQuoted | TokenUtil.cs:144-155 | the quote inner loop fails exactly when the scanner does, and otherwise returns the closing position and the raw characters between the quotes |
| Lexer.ScanComment | TokenUtil.cs:79-87 | a comment is skipped up to and including its line end, and the pending word is kept |
| Lexer.ScanCommentUnterminated | TokenUtil.cs:83-85 | a comment with no line end fails with IndexOutOfRange |
| Lexer.ScanCompound | TokenUtil.cs:98-136 | a symbol followed by '=' ends the pending word, emits its compound token (or nothing) and consumes both characters |
| Lexer.ScanSymbol | TokenUtil.cs:98-141 | a symbol not followed by '=' ends the pending word and emits its own token |
| Lexer.ScanQuote | TokenUtil.cs:144-155 | a quoted run becomes a string literal whose text is the pending word followed by the raw characters |
| Lexer.ScanQuoteUnterminated | TokenUtil.cs:147-151 | an unclosed quote fails with IndexOutOfRange |
| Lexer.ScanSpace | TokenUtil.cs:88-96 | a space ends the pending word and starts an empty one |
| Lexer.ScanChar | TokenUtil.cs:157-158 | any other character joins the pending word, except a control character, which is dropped |
| Lexer.ReservedToken | TokenUtil.cs:36-49 | definition: the eleven reserved spellings, exact and case-sensitive; properties in LexerProperties.ParseTokenReserved and ParseTokenLowerCaseKeyword |
| Lexer.IsOperator | TokenUtil.cs:52-56 | definition: the tag's code, read as an unsigned 32-bit integer, lies in 6..24; properties in LexerProperties.IsOperatorExactly and ExpressionProperties.OperatorsHaveCases |
| Lexer.Classifier | TokenUtil.cs:167-184 | definition: ParseToken as the word classifier the scanner applies; properties in Lexer.ParseToken and the LexerProperties lemmas about Lex |
| Lexer.CompoundTokens | TokenUtil.cs:98-136 | definition: a symbol followed by '=' emits its compound tag, or nothing; properties in LexerProperties.CompoundTable |
| Lexer.Scan | TokenUtil.cs:67-165 | definition: the tokenizer loop as a recursion over the index; Lexer.Tokenize is proved to compute it, properties in Lexer.ScanComment to Lexer.ScanEnd |
| Lexer.Lex | TokenUtil.cs:67-165 | definition: Tokenize as a function of the text; properties in LexerProperties.LexUnwords, CommentKeepsWord, StringLiteralTakesWord, SymbolEqualsFolded and the other LexerProperties lemmas |
| Lexer.ScanEnd | TokenUtil.cs:161-164 | at the end of input a pending word is emitted |
| LexerProperties.ScanWordChars | TokenUtil.cs:157-158 | a run of word characters is taken into the pending word without its control characters |
| LexerProperties.ControlCharacterDropped | TokenUtil.cs:157-158 | a control character inside a word is dropped without splitting the word |
| LexerProperties.LexUnwords | TokenUtil.cs:88-96 | words separated by single spaces lex to one token per word, each classified by ParseToken |
| LexerProperties.CommentKeepsWord | TokenUtil.cs:79-87 | a comment in the middle of a word removes itself and its line end and leaves the two halves as one word |
| LexerProperties.CommentUnterminated | TokenUtil.cs:79-87 | a comment with no line end makes the whole input fail with IndexOutOfRange |
| LexerProperties.StringLiteralTakesWord | TokenUtil.cs:144-155 | a word directly before a quote becomes the prefix of the string literal |
| LexerProperties.StringLiteralUnterminated | TokenUtil.cs:144-151 | an unclosed quote makes the whole input fail with IndexOutOfRange |
| LexerProperties.SymbolEndsWord | TokenUtil.cs:98-103 | a symbol splits the words on either side and emits its token between them |
| LexerProperties.SymbolEqualsFolded | TokenUtil.cs:105-136 | a symbol followed by '=' emits its compound token between the two words |
| LexerProperties.CompoundTable | TokenUtil.cs:108-136 | exactly `= < > + - * /` followed by '=' give `== <= >= += -= *= /=`; any other symbol followed by '=' gives nothing |
| LexerProperties.IsOperatorExactly | TokenUtil.cs:52-56 | a tag is an operator exactly when it is one of the assignment, compound, comparison, arithmetic and AND/OR tags; the parentheses are not operators |
| LexerProperties.ParseTokenBoolean | TokenUtil.cs:169-170 | "True" and "False" become boolean literals |
| LexerProperties.ParseTokenDecimal | TokenUtil.cs:172-173 | the decimal text of an Int64 becomes an integer literal of that value |
| LexerProperties.ParseTokenReserved | TokenUtil.cs:36-49 | each reserved spelling becomes its keyword token |
| LexerProperties.LetterWordIsNotLiteral | TokenUtil.cs:167-184 | a word of ASCII letters that no parser accepts as a number or boolean is a keyword when reserved and an identifier otherwise |
| LexerProperties.ParseTokenLowerCaseKeyword | TokenUtil.cs:36-49 | reserved words match by exact spelling: "while" is an identifier |
| Operables.SetFields | Operable.cs:85-102 | the protected Set writes the tag and the four payloads, and keeps the elements only under the Array tag |
| Operables.SetString | Operable.cs:55-59 | Set(String) gives a String holding that text, all other payloads at their defaults and no elements |
| Operables.SetInteger | Operable.cs:61-65 | Set(Int64) gives an Integer holding that number, all other payloads at their defaults and no elements |
| Operables.SetFloatingPoint | Operable.cs:67-71 | Set(Double) gives a FloatingPoint holding that number, all other payloads at their defaults and no elements |
| Operables.SetBoolean | Operable.cs:73-77 | Set(Boolean) gives a Boolean holding that value, all other payloads at their defaults and no elements |
| Operables.SetList | Operable.cs:79-83 | Set(IReadOnlyList) gives an Array with no elements, whatever the list |
| Operables.Copy | Operable.cs:42-53 | the deep copy has as many elements as the original; a value without elements is copied unchanged, and one with elements becomes an Array |
| Operables.SetSelf | Operable.cs:42-53 | x.Set(x) keeps the scalar fields and loses the elements, because the list is cleared before the loop reads it |
| Operables.Clone | Operable.cs:809-814 | Clone of a value in the form the Set methods produce is equal to it |
| Operables.CopyOfCanonical | Operable.cs:42-53 | copying a value already in copied form changes nothing |
| Operables.SetItem | Operable.cs:796-806 | the indexer's setter makes the receiver an Array with cleared payloads; with a value, it succeeds exactly for 0 up to Count, replacing the element with a copy below Count and appending one at Count |
| Operables.Fill | Operable.cs:800-802 | the growth loop appends max(n, 0) fresh Integer objects |
| Operables.GetItem | Operable.cs:792-795 | the getter succeeds exactly for an index within the list and returns that element; otherwise ArgumentOutOfRange |
| Operables.SetFrom | Operable.cs:42-53 | the loop of Set(Operable), element by element through the indexer, produces the deep copy |
| Operables.SetIndex | Operable.cs:796-806 | the setter as written, with its growth loop, computes SetItem |
| Operables.ConstReset | Const.cs:39-46 | Reset restores the origin's tag and payloads, and no elements for a non-Array origin |
| Operables.ConstNew | Const.cs:11-37 | a new Const is its own reset: it starts in its origin state with no elements |
| Operables.ToText | Operable.cs:719-746 | ToString as written computes the text: the string or "", decimal Int64, "True"/"False", the float's text, an Array's elements in braces |
| Operables.Display | Operable.cs:719-746 | definition: ToString's text for each tag, an empty text for the others; Operables.ToText is proved to compute it |
| Operables.Join | Operable.cs:732-740 | definition: the elements' texts separated by ", "; Operables.ArrayText is proved to compute it between braces |
| Operables.ArrayText | Operable.cs:731-742 | the builder loop renders an Array as its elements' texts between braces, separated by ", " |
| Operables.AddString | Operable.cs:104-127 | Add(String) keeps Canonical values canonical and leaves the elements alone |
| Operables.AddInteger | Operable.cs:129-143 | Add(Int64) keeps Canonical values canonical and leaves the elements alone |
| Operables.AddFloatingPoint | Operable.cs:145-161 | Add(Double) keeps Canonical values canonical and leaves the elements alone |
| Operables.Add | Operable.cs:163-177 | Add(Operable) keeps Canonical values canonical and leaves the elements alone |
| Operables.IntArith | Operable.cs:179-341 | Int64 `-`, `*`, `/` and `%` as C# computes them give an Int64; only `/` and `%` can fail (DivideByZero, or Overflow for Int64.MinValue by -1) |
| Operables.ArithInteger | Operable.cs:179-341 | Sub/Mul/Div/Rem with an Int64 operand keep the tag, the elements and the canonical form |
| Operables.ArithFloatingPoint | Operable.cs:192-337 | Sub/Mul/Div/Rem with a Double operand keep the elements and the canonical form |
| Operables.Arith | Operable.cs:207-341 | Sub/Mul/Div/Rem with an Operable operand keep the elements and the canonical form |
| Operables.BecomeBoolean | Operable.cs:343-442 | a comparison on a scalar receiver leaves a Boolean with that outcome, keeping the elements and the canonical form |
| Operables.EqualString | Operable.cs:343-367 | Equal(String) keeps the elements and the canonical form |
| Operables.EqualInteger | Operable.cs:369-392 | Equal(Int64) keeps the elements and the canonical form |
| Operables.EqualFloatingPoint | Operable.cs:394-417 | Equal(Double) keeps the elements and the canonical form |
| Operables.EqualBoolean | Operable.cs:419-442 | Equal(Boolean) keeps the elements and the canonical form |
| Operables.Equal | Operable.cs:444-465 | Equal(Operable) keeps the elements and the canonical form |
| Operables.OrderInteger | Operable.cs:467-653 | Greater/Less/GEqual/LEqual with an Int64 operand keep the elements and the canonical form |
| Operables.OrderFloatingPoint | Operable.cs:484-653 | Greater/Less/GEqual/LEqual with a Double operand keep the elements and the canonical form |
| Operables.Order | Operable.cs:501-653 | the comparison operators with an Operable operand keep the elements and the canonical form |
| Operables.And | Operable.cs:655-659 | And keeps the tag, the elements and the canonical form |
| Operables.Or | Operable.cs:661-665 | Or keeps the tag, the elements and the canonical form |
| OperableProperties.ScalarSetsForget | Operable.cs:55-77 | each scalar Set gives the same value whatever the receiver held: that tag and payload, the rest at defaults, no elements |
| OperableProperties.SetListForgets | Operable.cs:79-83 | Set(IReadOnlyList) gives the same empty Array for any two lists |
| OperableProperties.AddCases | Operable.cs:104-177 | Add(Operable) case by case: Int64 sums wrap; a String receiver appends the operand's text; an Integer or Boolean receiver plus a String becomes that String; Boolean and Array operands, and Boolean or Array receivers with a number, change nothing |
| OperableProperties.AddWraps | Operable.cs:133-135 | Int64.MaxValue + 1 is Int64.MinValue |
| OperableProperties.ArithCases | Operable.cs:179-341 | Sub/Mul/Div/Rem change only a numeric receiver with a numeric operand; Integer with Integer stays Integer with the Int64 result; a zero Integer divisor raises DivideByZero; Integer with FloatingPoint becomes FloatingPoint with the int payload zeroed |
| OperableProperties.DivisionTruncates | Operable.cs:261-308 | -7 / 2 is -3, -7 % 2 is -1 and 7 % -2 is 1 |
| OperableProperties.DivisionIdentity | Operable.cs:261-308 | for Int64 operands that do not fail, x equals (x / y) * y + x % y, the remainder is smaller than y in magnitude and has x's sign |
| OperableProperties.EqualCases | Operable.cs:343-465 | Equal makes a scalar receiver Boolean and does nothing with an Array on either side; Integer and String compare decimal text, Boolean and Integer compare with int not 0, Boolean and String compare with "True"/"False" |
| OperableProperties.EqualTextExamples | Operable.cs:352-366 | `1 == "1"` is true and `true == "true"` is false |
| OperableProperties.OrderCases | Operable.cs:467-653 | Integer against Integer becomes the Boolean outcome with the int payload zeroed; a String, Boolean or Array on either side changes nothing |
| OperableProperties.LogicCases | Operable.cs:655-665 | And/Or change only a Boolean receiver, combining it with the operand's boolean payload whatever the operand's tag |
| OperableProperties.ConstructorsStartAtOrigin | Const.cs:11-37 | each constructor's object equals its origin: that tag and payload, the rest at defaults, no elements |
| OperableProperties.ConstResetRestores | Const.cs:39-46 | Reset restores the constructed state whatever happened to the object, and is idempotent |
| OperableProperties.ConstResetUndoesAdd | Const.cs:39-46 | a literal 2 that evaluation turned into 3 is 2 again after Reset |
| OperableProperties.DisplayArray | Operable.cs:731-742 | a three-element Array renders as "{a, b, c}" |
| OperableProperties.DisplayNested | Operable.cs:731-742 | an Array of 1 and an Array of 2 renders as "{1, {2}}" |
| OperableProperties.SetListDropsElements | Operable.cs:79-101 | Set(IReadOnlyList) as written, with its emptied copy loop and its second Clear, turns a one-element list into an empty Array |
| OperableProperties.SetListIntended | Operable.cs:79-101 | Set(IReadOnlyList) as it is meant to work, with the loop appending and without the second Clear: an Array whose elements, read through the indexer, are the list's |
| OperableProperties.SetItemPastEndFails | Operable.cs:798-805 | as written, this[1] = x on an empty Array throws ArgumentOutOfRange |
| OperableProperties.SetItemIntended | Operable.cs:796-806 | with the growth of index - count + 1 elements, any index from 0 on can be written: the list grows to index + 1, the new slots are fresh objects, the others are kept, and the element at the index reads back as a copy of the value |
| OperableProperties.SetItemAgreesToEnd | Operable.cs:42-53 | the two setters agree for every index up to Count, the only ones Set(Operable) writes |
| Store.Assign | Operable.cs:42-102 | a Set writes one cell, advances its list version and changes no other cell |
| Store.Put | Operable.cs:104-665 | an operator writes one cell and changes no other cell and no version |
| Store.SetCell | Operable.cs:42-53 | dst.Set(src) makes dst a deep copy of another object, or loses dst's elements when it is the same object; no other cell changes |
| Store.NewCell | Operable.cs:16-20 | a new object gets a fresh cell with that value; nothing else changes |
| Store.NewProxy | OperableClone.cs:7-10 | new OperableClone(source) is a fresh Integer 0 object with that source; no other object or source changes |
| Store.SetSource | OperableClone.cs:12-15 | SetSource replaces only the source; the proxy's value stays the same |
| Store.ResetProxy | OperableClone.cs:17-23 | Reset with no source changes nothing; with one it copies the source's value into the proxy and touches nothing else |
| Store.ApplyProxy | OperableClone.cs:25-28 | Apply with no source changes nothing; with one it copies the proxy's value into the source and touches nothing else |
| Store.ResetThenApply | OperableClone.cs:17-28 | Reset followed by Apply leaves the source with a copy of its own value, which is the same value when it was in copied form |
| Store.CopyIdempotent | Operable.cs:42-53 | copying a copy gives the same copy |
| Store.ResetConst | Const.cs:39-46 | a Const's reset rewrites its own cell from its origin and no other |
| Store.UpdateFunction | Function.cs:5-16 | changing one function's argument table and flags leaves every other function, cell and loop alone |
| Store.Lookup | Function.cs:20 | the argument dictionary finds a name exactly when some parameter has it, and returns that parameter's proxy |
| Store.AppendArg | Function.cs:24-31 | AppendArg fails on a null name or a duplicate name; otherwise it adds the parameter at the end with a fresh unbound proxy, changing no other function or object |
| Store.GetArg | Function.cs:18 | GetArg(i) succeeds exactly for i below the parameter count and returns parameter i |
| Store.GetArgOperable | Function.cs:20 | GetArgOperable succeeds exactly for a declared name, returns that parameter's proxy, and otherwise fails with KeyNotFound |
| Store.SetArgValue | Function.cs:33-40 | SetArgValue(i) first declares a by-value parameter arg{i} when i equals the count (failing if that name exists, or when i is beyond it), then points parameter i's proxy at the argument and copies the argument's value into it |
| Store.UpdateLoop | While.cs:38-40 | changing one loop's flags leaves every other loop, cell and function alone |
| Execution.Precedence | Expression.cs:195-218 | AND/OR are 1, comparisons 2, + and - 3, * / % 4, everything else 0 |
| Execution.ResetTokens | Expression.cs:16-21 | Expression.Reset changes only the objects its literal and proxy tokens reset; when no two tokens reset the same object, every literal ends at its origin and every proxy whose source is not itself a token's object ends holding a copy of that source |
| Execution.ResetToken | Expression.cs:19-20 | one token's Reset: a literal regains its origin, a proxy with a source other than itself takes a copy of it, and no other object changes |
| Execution.PopHigher | Expression.cs:50-57 | an incoming operator moves the stacked operators of higher or equal precedence to the output in pop order and stops at the first operator of lower precedence or non-operator |
| Execution.TopParen | Expression.cs:65-71 | finds the topmost `(` on the stack, or reports that there is none |
| Execution.PopToParen | Expression.cs:65-75 | `)` moves everything above the topmost `(` to the output and drops the `(`; with no `(` it fails with MismatchedParentheses |
| Execution.Drain | Expression.cs:83-89 | at the end the stack is moved to the output in pop order; it fails with MismatchedParentheses exactly when a parenthesis is left on it |
| Execution.IsAssignment | Expression.cs:132-156 | definition: the five cases that write the left operand back through Apply; Execution.WriteBackIf and ApplyOperator state the effect |
| Execution.HasCase | Expression.cs:110-185 | definition: the seventeen operators the switch has a case for; ExpressionProperties.OperatorsHaveCases proves they are exactly the IsOperator tags |
| Execution.BaseOperator | Expression.cs:132-151 | definition: the arithmetic a compound assignment does before it writes back; Execution.ApplyOperator applies it |
| Execution.ApplyLeft | Expression.cs:134-154 | an assignment writes back through the left operand's proxy, and fails with InvalidCast when the left operand is not a proxy |
| Execution.ApplyOperator | Expression.cs:110-186 | a non-assignment operator changes only its left operand |
| Execution.WriteBackIf | Expression.cs:132-156 | only `=`, `+=`, `-=`, `*=` and `/=` write back; other operators leave the state their operation produced |
| Execution.Postfix | Expression.cs:91-187 | postfix evaluation creates no object and touches no control flag; an operator that finds no value, or only one value that is an object, fails with StackEmpty, and one whose top value is no object fails with InvalidCast |
| Execution.Finish | Expression.cs:189-192 | the expression succeeds exactly when one value is left, and then becomes a copy of it; otherwise InvalidExpression |
| Execution.ExecExpr | Expression.cs:23-193 | evaluation keeps every object, function and loop: it can only add objects |
| Execution.Convert | Expression.cs:30-81 | the conversion scan, including the calls it runs, keeps every object, function and loop: it can only add objects |
| Execution.ExecCall | FunctionCall.cs:20-43 | with no target nothing happens; otherwise the result object ends as a copy of the function's own value |
| Execution.BindArgs | FunctionCall.cs:25-35 | preparing and binding the arguments keeps every object, function and loop: it can only add objects |
| Execution.ExecFunction | Function.cs:42-61 | running a function keeps every object, function and loop: it can only add objects |
| Execution.FunctionBody | Function.cs:46-52 | running a function's statements keeps every object, function and loop: it can only add objects |
| Execution.WriteBack | Function.cs:54-60 | the write-back loop creates no object and touches no control flag |
| Execution.ExecNode | Statement.cs:20 | executing a statement keeps every object, function and loop: it can only add objects |
| Execution.IfBody | If.cs:19-20 | running an IF body keeps every object, function and loop: it can only add objects |
| Execution.LoopBody | While.cs:20-32 | one pass of a loop body keeps every object, function and loop: it can only add objects |
| Execution.WhileFrom | While.cs:18-35 | a WHILE loop keeps every object, function and loop: it can only add objects |
| Execution.ForFrom | For.cs:20-39 | a FOR loop keeps every object, function and loop: it can only add objects; the per-element passes, the version check and the final values are stated by ExecutionProperties.ForPass, ForEndsOnLast, ForEmptySkips and ForModifiedFails |
| Execution.SetVariables | For.cs:22-23 | every loop variable holds a copy of the current element and no other object changes, neither in value nor in version |
| Execution.ReturnTo | Return.cs:12-15 | RETURN clears the flag of its Script or function, and changes no object and no loop flag |
| Execution.BreakLoop | Break.cs:12 | BREAK clears its loop's in-progress flag and nothing else; without a loop it does nothing |
| Execution.ContinueLoop | Continue.cs:12 | CONTINUE sets its loop's continue flag and nothing else; without a loop it does nothing |
| Execution.ExecScript | Script.cs:56-66 | running the script keeps every object, function and loop: it can only add objects |
| Execution.ScriptBody | Script.cs:59-65 | running the top-level statements keeps every object, function and loop: it can only add objects |
| Execution.ResetNode | Return.cs:17 | Reset of BREAK, CONTINUE or RETURN throws NotResetable; resets change no control flag |
| Execution.ResetChildren | Statement.cs:12-16 | resetting a statement's children changes no control flag |
| Execution.ResetNodes | Script.cs:70-71 | resetting a statement list changes no control flag |
| Execution.ResetScript | Script.cs:68-75 | Script.Reset changes no control flag |
| Execution.ResetFunctions | Script.cs:73-74 | resetting the function bodies changes no control flag |
| ExecutionProperties.BreakEndsPass | While.cs:30-31 | a BREAK bound to its loop ends the pass right after itself |
| ExecutionProperties.ContinueRunsRest | While.cs:24-28 | a CONTINUE bound to its loop lets the rest of the body run, exactly as if it were absent |
| ExecutionProperties.ReturnDoesNotStopLoop | While.cs:30 | a RETURN bound to a function does not stop the loop it is in |
| ExecutionProperties.LoopEntryForgetsBreak | While.cs:16 | an earlier BREAK does not affect a later execution of the loop |
| ExecutionProperties.WhileFalseSkips | While.cs:18 | a false condition runs no pass and changes nothing |
| ExecutionProperties.IfChoosesBody | If.cs:12-20 | IF evaluates its condition once; a false condition skips the body and leaves the condition's state, a true one runs the whole body |
| ExecutionProperties.ForEmptySkips | For.cs:20 | an element-less collection runs no pass and changes nothing |
| ExecutionProperties.ForModifiedFails | For.cs:20 | a collection whose list changed during the loop makes the next step fail with CollectionModified |
| ExecutionProperties.ForEndsOnLast | For.cs:20-38 | if, in every state the enumeration can reach (loop in progress, collection at the starting version, store no smaller), one pass of the body finishes, keeps the loop in progress and writes neither the loop variables nor the collection, then the loop runs one pass per element in order, succeeds, and leaves every loop variable holding a copy of the last element |
| ExecutionProperties.ForPass | For.cs:22-37 | one pass sets each loop variable to a copy of the current element and runs the body once; when that one pass keeps the variables and the collection, the enumeration continues at the next element from a state that is again reachable |
| ExecutionProperties.ReachesSetVariables | For.cs:22-23 | giving the variables the next element keeps the enumeration in a reachable state |
| ExecutionProperties.ForEmptyBodyLast | For.cs:20-38 | a FOR with an empty body over a non-empty collection, entered with its loop in progress, succeeds and leaves every loop variable holding a copy of the last element |
| ExecutionProperties.ForStartsInProgress | For.cs:18-20 | the FOR statement sets its loop's flag and then evaluates the collection: with a call-free collection expression, a failing evaluation fails the statement, and otherwise the enumeration starts over the list the collection then holds, at its version, with the loop in progress |
| ExecutionProperties.OneStatementPass | For.cs:25-37 | a body of one statement that succeeds and leaves the loop in progress finishes the pass, clearing only a continue flag the statement set |
| ExecutionProperties.ContinueBodyKeeps | For.cs:25-37 | the body of `FOR x IN a { CONTINUE }`, a CONTINUE bound to the FOR as ProcessContainer binds it, meets the premise of ForEndsOnLast in every reachable state: the pass sets the continue flag, the loop clears it, and no object changes |
| ExecutionProperties.ForContinueBodyLast | For.cs:20-38 | `FOR x IN a { CONTINUE }` over a non-empty collection, entered with its loop in progress, succeeds and leaves every loop variable holding a copy of the last element |
| ExecutionProperties.IfIgnoresBreak | If.cs:19-20 | an IF body does not stop at a BREAK; the BREAK only sets its loop's flag |
| ExecutionProperties.ScriptReturnStops | Script.cs:59-65 | a RETURN in the script's statements stops the script right after itself |
| ExecutionProperties.EarlyReturnSkipsWriteBack | Function.cs:50-51 | a function whose body returns at once copies no by-reference parameter back |
| ExecutionProperties.ReturnStopsBody | Function.cs:46-52 | a RETURN to the function at any position of its body ends the body right after itself, with the function's flag cleared |
| ExecutionProperties.FunctionBodyStep | Function.cs:46-51 | a statement that leaves the function's flag set hands its state to the next statement |
| ExecutionProperties.ReturnSkipsWriteBack | Function.cs:42-61 | when the body, run from its start, reaches a RETURN to the function at any position, the call ends there with the flag cleared and nothing written back |
| ExecutionProperties.EmptyBodyWritesBack | Function.cs:54-60 | a function whose body completes writes back its parameters |
| ExecutionProperties.WriteBackCopies | Function.cs:54-60 | after normal completion, each by-reference parameter's source holds a copy of the parameter's value |
| ExecutionProperties.WriteBackFrame | Function.cs:54-60 | the write-back changes no object that is not the source of a by-reference parameter, so by-value parameters are never copied back |
| ExecutionProperties.ResetFailsOnJump | Statement.cs:12-16 | Reset of a statement fails exactly when it contains BREAK, CONTINUE or RETURN at some depth, with NotResetable |
| ExecutionProperties.ResetChildrenFails | Statement.cs:14-15 | resetting a list of children fails exactly when one of them contains a jump |
| ExpressionProperties.ConvertCallFree | Expression.cs:30-81 | without call tokens the conversion scan changes no object and yields what Shunt, the same scan without its call branch, yields; neither depends on the program or the fuel |
| ExpressionProperties.ConvertRunsCall | Expression.cs:41-46 | a call token runs its call when the scan reaches it, in the state the earlier tokens left, and the call's result object is enqueued; a failing call fails the scan with the call's error |
| ExpressionProperties.Evaluate | Expression.cs:23-193 | the call-free evaluation creates no object and touches no control flag |
| ExpressionProperties.ExecExprCallFree | Expression.cs:23-193 | a call-free expression's Execute is Evaluate (reset, the scan without calls, postfix evaluation, then the last value) under any program and fuel |
| ExpressionProperties.EvaluateLiteral | Expression.cs:23-193 | an expression that is a lone integer literal (as in `IF 7 {` or `FOR x IN 7 {`) resets the literal to its number and copies it into the expression's object |
| ExpressionProperties.LoneVariableNeedsValueTag | Expression.cs:23-193 | an expression that is a lone variable, read through its proxy, fails with InvalidExpression when the variable holds a tag that is no value, no operator and no parenthesis: the conversion skips the token and no value is left |
| ExpressionProperties.OperatorsHaveCases | Expression.cs:103-185 | the evaluation's switch has a case for exactly the tags IsOperator admits, so no operator is popped without being applied |
| ExpressionProperties.PrecedenceOrdersOperators | Expression.cs:50-57 | `2 + 3 * 4` evaluates to 14 |
| ExpressionProperties.EvaluateTwice | Expression.cs:23-25 | executing `2 + 3 * 4` again after a first run, which left the literal 2 holding 14, gives the same result, because Execute first resets the literals |
| ExpressionProperties.EvaluateSumOfProduct | Expression.cs:91-192 | Evaluate of `2 + 3 * 4` gives 14 |
| ExpressionProperties.ResetSumOfProduct | Expression.cs:16-21 | resetting `2 + 3 * 4` restores the three literals |
| ExpressionProperties.ShuntSumOfProduct | Expression.cs:30-89 | `2 + 3 * 4` converts to the postfix `2 3 4 * +` |
| ExpressionProperties.PostfixSumOfProduct | Expression.cs:91-187 | postfix `2 3 4 * +` leaves one value, 14 |
| ExpressionProperties.ParenthesesGroupFirst | Expression.cs:62-75 | parentheses override precedence: `(2 + 3) * 4` evaluates to 20 under any program and fuel, and the literal 2 is left holding it |
| ExpressionProperties.EvaluateProductOfSum | Expression.cs:23-192 | Evaluate of `(2 + 3) * 4` gives 20 |
| ExpressionProperties.ResetProductOfSum | Expression.cs:16-21 | resetting `(2 + 3) * 4` restores the three literals |
| ExpressionProperties.ShuntProductOfSum | Expression.cs:30-89 | `(2 + 3) * 4` converts to the postfix `2 3 + 4 *`: `)` sends `+` to the output before `*` arrives |
| ExpressionProperties.PostfixProductOfSum | Expression.cs:91-187 | postfix `2 3 + 4 *` leaves one value, 20 |
| ExpressionProperties.ShuntValue | Expression.cs:34-40 | a token whose live tag is a value type goes straight to the output |
| ExpressionProperties.ShuntOperator | Expression.cs:50-58 | an operator moves the stacked operators of at least its precedence to the output and is stacked |
| ExpressionProperties.ShuntLParen | Expression.cs:62-64 | `(` is stacked |
| ExpressionProperties.ShuntRParen | Expression.cs:65-75 | `)` pops to the topmost `(` and drops it, or fails with MismatchedParentheses |
| ExpressionProperties.PostfixPush | Expression.cs:96-101 | a value-typed entry is pushed on the value stack |
| ExpressionProperties.PostfixApply | Expression.cs:103-184 | an operator with a case pops b, then a, applies itself to a with b and pushes a back, so the stack's top is the operator's result |
| Parser.ScopeOf | Script.cs:260 | only a function returnable resolves parameters |
| Parser.ContentOf | Script.cs:91 | an entity has identifier text exactly when it is an identifier |
| Parser.NewFunction | Script.cs:100 | a new Function gets the next id, its own object, an empty argument table and an empty body |
| Parser.NewLoop | Script.cs:137 | a new WHILE or FOR gets the next id with both flags false |
| Parser.NewObject | Script.cs:264 | a new object gets a fresh cell holding the value |
| Parser.NewProxyOf | Expression.cs:12 | Append(Operable) makes a fresh proxy of the object |
| Parser.Emit | Script.cs:83 | a node goes at the end of the Script's list, of the function's list, or of the statement being built |
| Parser.ProcessVariable | Script.cs:253-269 | a name resolves to a global variable, else to a function, else to the enclosing function's parameter (failing with KeyNotFound without one), else to a new global Integer 0 |
| Parser.CloseFrom | Script.cs:193-208 | the brace loop stops at a `}` or fails with ArgumentOutOfRange at the end of the list |
| Parser.Collect | Script.cs:172-213 | CollectInternalTokens fails with UnexpectedToken unless it starts at `{`; it returns the tokens strictly between the `{` and the `}` it stops at, and `{}` gives none |
| Parser.ProcessExpression | Script.cs:215-251 | ProcessExpression stops at the end or at a `;`, `{` or `,`, changes no statement, and evaluates into a fresh object |
| Parser.ExpressionFrom | Script.cs:218-246 | the token loop stops at a stop token or the end and changes no statement; an identifier followed by `(` that is not a declared function fails with FunctionNotDefined |
| Parser.CallFrom | Script.cs:315-344 | the argument loop moves forward, keeps the call's target and result object, and fails with ArgumentOutOfRange at the end of the list; when it succeeds it stops where the depth count of CallEnd first returns to zero at a `)` |
| Parser.ArgumentOf | Script.cs:276-313 | an empty argument, or a single symbol or keyword token, adds nothing; a single literal adds a fresh Const (stated by ParserProperties.ArgumentCases); a single identifier naming a global variable passes that object itself, and one that is not global fails with UnexpectedArgument outside a function; at most one argument is added and the call's target and result are kept |
| Parser.StartsStatement | Script.cs:92-168 | definition: the token tags the switch of ProcessContainer has a case for; Parser.StatementAt skips every other token |
| Parser.CallEnd | Script.cs:315-344 | definition: the position after the `)` that closes the call; properties in ParserProperties.CallEndCloses and Parser.CallFrom |
| Parser.ContainerFrom | Script.cs:77-170 | definition: the loop of ProcessContainer from a token on; properties in ParserProperties.ContainerFromBound |
| Parser.ProcessContainer | Script.cs:77-170 | definition: ContainerFrom over the whole token list; Scripts.Script.ProcessContainer is proved to compute it |
| Parser.LoadFromSource | Script.cs:18-22 | definition: tokenize, then ProcessContainer with the Script as container and returnable and no loop; properties in ParserProperties.LoadFromSourceBound and Scripts.Script.LoadFromSource |
| Parser.StatementAt | Script.cs:88-168 | a token that starts no statement is skipped without any change |
| Parser.Implement | Script.cs:120-125 | IMP of an undeclared name fails with KeyNotFound, of a non-identifier with NullKey; otherwise it adds nothing to the enclosing list and stops inside the token list |
| Parser.Conditional | Script.cs:126-140 | IF and WHILE stop on a token after their keyword, inside the token list |
| Parser.ForLoop | Script.cs:141-158 | FOR stops on a token after its keyword, inside the token list |
| Parser.ForRest | Script.cs:153-158 | after IN, FOR stops on a token after the IN, inside the token list |
| Parser.Define | Script.cs:97-119 | DEF adds one function with an empty body and stops at the `;` |
| ParserProperties.DefineSucceeds | Script.cs:97-119 | DEF succeeds exactly when the name is an identifier not yet declared and the parameter list parses up to a `;` |
| Parser.Parameters | Script.cs:103-115 | the parameter loop stops at a `;` and changes neither the statements, the dictionaries nor the number of functions |
| Parser.ForVariables | Script.cs:144-151 | the variable loop stops at IN and changes neither the statements, the functions nor the loops |
| ParserProperties.CloseFromMatches | Script.cs:193-208 | when the brace loop stops, the braces counted from the start balance there and nowhere earlier |
| ParserProperties.CloseFromUnmatched | Script.cs:193-208 | when the brace loop reaches the end, the braces never balance |
| ParserProperties.CollectMatches | Script.cs:172-213 | CollectInternalTokens succeeds exactly when the start is `{` and its braces balance somewhere; the block is everything between the `{` and its matching `}`, nested braces kept |
| ParserProperties.StopFrom | Script.cs:218-222 | the first stop token at or after a position, or the end |
| ParserProperties.NextEntry | Script.cs:224-243 | each non-call token is appended in its translated form; only a missing parameter can fail it |
| ParserProperties.ExpressionFromCallFree | Script.cs:215-251 | without calls, an expression takes every token up to the first stop token, each translated, and fails only on a missing parameter |
| ParserProperties.CallEndCloses | Script.cs:315-344 | counting `(` up and `)` down from the call's depth, the first `)` that brings the count to zero is the one that matches the call's `(` |
| ParserProperties.CallFromMatches | Script.cs:315-344 | the argument loop stops just after the `)` that matches the call's `(` |
| ParserProperties.ArgumentCases | Script.cs:276-313 | inside a function a lone name that is no global variable passes the caller's parameter proxy or fails with KeyNotFound; a lone literal passes a fresh Const holding its origin; several tokens pass an Expression parsed in the called function's scope, failing exactly when that parse fails |
| ParserProperties.SplitArgs | Script.cs:322-342 | splitting argument tokens at commas gives at least one argument |
| ParserProperties.SplitJoin | Script.cs:322-342 | splitting gives one argument more than there are commas, keeps every other token in order, and leaves no comma inside an argument |
| ParserProperties.CallArgumentsSplit | Script.cs:315-344 | for an argument list without parentheses inside, the call's arguments are those of the comma-separated stretches, in order, and the loop ends after the `)` |
| ParserProperties.Modes | Function.cs:24-31 | the parameter names and by-reference marks, in declaration order |
| ParserProperties.AppendArgModes | Function.cs:24-31 | AppendArg adds exactly one name and mark at the end |
| ParserProperties.ParametersInOrder | Script.cs:103-115 | after DEF, the function's parameters are the names of the list in order, each marked by-reference exactly when `&` precedes it |
| ParserProperties.EmitBound | Script.cs:159-167 | adding a node whose jumps are bound to the current targets keeps every container bound |
| ParserProperties.DefineBound | Script.cs:97-119 | DEF keeps every jump bound |
| ParserProperties.ContainerFromStep | Script.cs:77-170 | one round of the ProcessContainer loop: a statement that fails to parse fails the whole container, otherwise parsing goes on just after the statement |
| ParserProperties.ContainerFromBound | Script.cs:77-170 | ProcessContainer binds every RETURN to the current returnable and every BREAK/CONTINUE to the current loop |
| ParserProperties.StatementBound | Script.cs:88-168 | each statement case binds its jumps to the current targets |
| ParserProperties.ImplementBound | Script.cs:120-125 | an IMP body binds RETURN to its function and BREAK/CONTINUE to no loop |
| ParserProperties.ConditionalBound | Script.cs:126-140 | IF passes both targets through; WHILE becomes the loop target of its body |
| ParserProperties.ForLoopBound | Script.cs:141-158 | FOR becomes the loop target of its body |
| ParserProperties.ForRestBound | Script.cs:153-158 | the FOR body is bound to the new loop |
| ParserProperties.LoadFromSourceBound | Script.cs:18-22 | after LoadFromSource the Script's jumps return to the Script and each function's to that function, loops bound to their nearest enclosing loop |
| Scripts.Script.constructor | Script.cs:11-16 | a new Script has empty dictionaries and no statements |
| Scripts.Script.TryGetVariable | Script.cs:26-29 | finds a name exactly when it is a global variable, with its object |
| Scripts.Script.SetVariable | Script.cs:31-39 | an existing variable takes a deep copy of the object; a new name is added and refers to the object itself; no other entry changes |
| Scripts.Script.TryGetFunction | Script.cs:41-44 | finds a name exactly when it is a declared function |
| Scripts.Script.SetFunction | Script.cs:46-54 | an existing function's own object takes a deep copy of the other function's; a new name is added |
| Scripts.Script.LoadFromSource | Script.cs:18-22 | tokenizing and processing leave the Script in the parse state the Parser computes, and fail exactly when it does |
| Scripts.Script.ProcessContainer | Script.cs:77-170 | the loop over the token list, one case per turn, leaves the Script in the state ProcessContainer computes |
| Scripts.Script.CollectInternalTokens | Script.cs:172-213 | the brace-counting loop computes Collect |
| Scripts.Script.Execute | Script.cs:56-66 | the statement loop with its flag check leaves the store in the state ExecScript computes, and fails exactly when it does |
| Scripts.Script.Return | Script.cs:349-352 | Return clears only the Script's in-progress flag |
| Scripts.Script.Reset | Script.cs:68-75 | the two reset loops leave the store in the state ResetScript computes, and fail exactly when it does |

## Findings

| source | as written | input that shows it | evidently intended | confidence | as-written member | corrected member |
|---|---|---|---|---|---|---|
| Operable.cs:79-101 | the protected Set clears `_arrayList` and then loops over `_arrayList.Count`, which is now 0; the public Set(IReadOnlyList) then clears the list again at line 82; so Set(IReadOnlyList) always leaves an empty Array | Set([x]) on any receiver gives Count 0 | the Array holds the given list's elements; this needs both the loop at 99-100 to append each element (indexing the emptied list would throw) and the second Clear at line 82 to go | not executed; high | OperableProperties.SetListDropsElements | OperableProperties.SetListIntended |
| Operable.cs:800-802 | the indexer's growth loop runs count - index + 1 times, which is at most once and only at index == count | this[1] = x on an empty Array throws ArgumentOutOfRange | index - count + 1 new elements, so any index from 0 on can be written | not executed; medium | OperableProperties.SetItemPastEndFails | OperableProperties.SetItemIntended |

The interpreter itself only writes through the indexer at index == Count (in Set(Operable)). There the two setters agree (SetItemAgreesToEnd), so the rest of the model, which uses SetItem, behaves the same under the corrected definition. No caller of Set(IReadOnlyList) is part of the core.

## Left out

- Floating point: `Double` is an opaque payload. Its arithmetic, comparisons with `Double.Epsilon`, formatting and parsing are parameters of a `FloatModel`. Only the tag changes are modelled: an Integer and a Double give a FloatingPoint with the int payload zeroed.
- Double.TryParse: lemmas that need "a word of letters is not a number" assume a soundness predicate on the supplied parser, `ParseIsSound`. The real parser accepts only digits, signs, separators, exponents and the Infinity and NaN spellings.
- Culture: Int64 and Boolean text are the invariant culture's. Boolean.TryParse folds case only for ASCII letters.
- Host interop: the narrowing getters `GetInt16` to `GetSingle` and `GetNativeObject` are left out, and so is ExternalExecutable.cs, which calls a host delegate.
- Resource lifecycle: `Dispose`, the finalizer, `Release` and `OnReleaseUnmanaged` are left out.
- Enumerator plumbing: FOR iterates over a snapshot of the collection's elements. A per-cell list version models the enumerator's "collection was modified" failure.
- Exceptions: each .NET exception is one constructor of `Error`. A failing operation returns `Err` and no state, so the partial changes the C# code would leave behind before throwing are not modelled.
- Scripts.Script.LoadFromSource: on failure the object keeps its old state, rather than the partial state C# leaves. Scripts.Script.ProcessContainer, Scripts.Script.Execute and Scripts.Script.Reset behave the same way.
- Fuel: interpreted calls and WHILE re-tests consume fuel. When it runs out the result is `Err(OutOfFuel)`, so non-terminating scripts are not modelled.
- Operators are functions from the receiver's record to its new record, applied to a store cell, not methods of a mutable class. The store makes aliasing explicit instead.
- Evaluation, statements and nested ProcessContainer calls are recursive functions. Only the top-level loops of `Script` (ProcessContainer, Execute, Reset), CollectInternalTokens, `Tokenize`, `Set(Operable)`, the indexer and `ToString` are written as loop methods proved equal to them.
- The Operables operator functions (Add, Arith, Equal, Order and their overloads) state in their own contracts only that the elements are kept and Canonical values stay canonical. Their case tables are in the OperableProperties lemmas.
- Execution.ResetTokens: the restored values are stated only when no two tokens reset the same object, and for a proxy only when its source is no token's object. The parser's fresh literals and proxies meet the first condition. Otherwise only the frame is stated.
- Execution.ForFrom: its own contract states only what a FOR keeps (objects, functions and loops; objects may be added). What each pass does is stated by the lemmas ForPass, ForEndsOnLast, ForEmptySkips and ForModifiedFails, because ForFrom is one of the mutually recursive execution functions and every ensures on them enters the proof of every other one.
- ExecutionProperties.ForEndsOnLast: stated only for bodies that, in every state the enumeration can reach, finish the pass, keep the loop in progress and write neither the loop variables nor the collection. A body that breaks, returns or writes them is covered only by ForFrom's frame, ForPass and ForModifiedFails. ForContinueBodyLast (a body `CONTINUE`) and ForEmptyBodyLast are the bodies shown to meet it. An expression statement such as `y;` meets it only when the values it reads carry a value tag, which the reachable states do not fix (ExpressionProperties.LoneVariableNeedsValueTag), so no expression statement the parser builds, each of which starts with a variable or a call, is shown to meet it.
- ParserProperties.CallArgumentsSplit: stated only for argument lists with no parenthesis inside. Nested calls and groups are covered only by CallFromMatches.
- ExecutionProperties.ReturnSkipsWriteBack: it takes as a premise that the body, run from its start, reaches the RETURN. FunctionBodyStep takes it there one statement at a time, but no lemma folds a whole prefix of statements.
- ExpressionProperties.EvaluateTwice: that a second Execute gives the same result is proved only for `2 + 3 * 4`, not for every expression.
- Execution.ExecCall, Execution.BindArgs: no lemma states which value each parameter holds when the body starts; the binding order and InvolvedArgumentCount are written directly in the two definitions. Such a lemma would not hold in general. The parameter proxies belong to the Function object, and FunctionCall.cs:25-35 binds argument i right after evaluating it. So in `f(1, f(2, 3))` the inner call rebinds parameter 0 to 2 before the outer body runs, and the model does the same. Nor do the lemmas state that parameters beyond the supplied arguments keep their source.
- The unseen interfaces (`IExecutable`, `IReturnable`, `ILoop`, `IResetable`, `IExecutableContainer`) and `Argument` are not part of this model. Their shapes are taken from how the code uses them.
