/** The tag enumeration and the three kinds of token the lexer produces:
    a bare `Entity` carrying only a tag, an `Undefined` word (an identifier), and a `Const`
    literal, which is described here by its origin fields. */
module Entities {
  import opened Wrappers
  import opened Numerics

  /** EntityType, with the numeric value of each member given by Code. */
  datatype EntityType =
    | Undefined | None
    | String | Integer | FloatingPoint | Boolean
    | LParen | RParen
    | Equal | EqualEqual | GEqual | LEqual | Greater | Less
    | PlusEqual | MinusEqual | MulEqual | DivEqual
    | Plus | Minus | Percent | Mul | Div
    | And | Or
    | If | While
    | Def | Imp
    | Semicolon | Comma
    | BeginBlock | EndBlock
    | Break | Return | Call | Ref | Array | For | In | Continue
  {
    /** The enum member's underlying int. Codes 16 and 17 are not used. */
    function Code(): int {
      match this
      case Undefined => -2
      case None => -1
      case String => 0
      case Integer => 1
      case FloatingPoint => 2
      case Boolean => 3
      case LParen => 4
      case RParen => 5
      case Equal => 6
      case EqualEqual => 7
      case GEqual => 8
      case LEqual => 9
      case Greater => 10
      case Less => 11
      case PlusEqual => 12
      case MinusEqual => 13
      case MulEqual => 14
      case DivEqual => 15
      case Plus => 18
      case Minus => 19
      case Percent => 20
      case Mul => 21
      case Div => 22
      case And => 23
      case Or => 24
      case If => 25
      case While => 26
      case Def => 27
      case Imp => 28
      case Semicolon => 29
      case Comma => 30
      case BeginBlock => 31
      case EndBlock => 32
      case Break => 33
      case Return => 34
      case Call => 35
      case Ref => 36
      case Array => 37
      case For => 38
      case In => 39
      case Continue => 40
    }

    /** The five tags a runtime value can carry. */
    predicate IsValueType() {
      this in {String, Integer, FloatingPoint, Boolean, Array}
    }
  }

  /** The member whose underlying int is n, if there is one: Enum.IsDefined and the cast. */
  function FromCode(n: int): Option<EntityType> {
    if n == -2 then Some(Undefined) else if n == -1 then Some(EntityType.None)
    else if n == 0 then Some(String) else if n == 1 then Some(Integer)
    else if n == 2 then Some(FloatingPoint) else if n == 3 then Some(Boolean)
    else if n == 4 then Some(LParen) else if n == 5 then Some(RParen)
    else if n == 6 then Some(Equal) else if n == 7 then Some(EqualEqual)
    else if n == 8 then Some(GEqual) else if n == 9 then Some(LEqual)
    else if n == 10 then Some(Greater) else if n == 11 then Some(Less)
    else if n == 12 then Some(PlusEqual) else if n == 13 then Some(MinusEqual)
    else if n == 14 then Some(MulEqual) else if n == 15 then Some(DivEqual)
    else if n == 18 then Some(Plus) else if n == 19 then Some(Minus)
    else if n == 20 then Some(Percent) else if n == 21 then Some(Mul)
    else if n == 22 then Some(Div) else if n == 23 then Some(And)
    else if n == 24 then Some(Or) else if n == 25 then Some(If)
    else if n == 26 then Some(While) else if n == 27 then Some(Def)
    else if n == 28 then Some(Imp) else if n == 29 then Some(Semicolon)
    else if n == 30 then Some(Comma) else if n == 31 then Some(BeginBlock)
    else if n == 32 then Some(EndBlock) else if n == 33 then Some(Break)
    else if n == 34 then Some(Return) else if n == 35 then Some(Call)
    else if n == 36 then Some(Ref) else if n == 37 then Some(Array)
    else if n == 38 then Some(For) else if n == 39 then Some(In)
    else if n == 40 then Some(Continue)
    else Option.None
  }

  /** Every member is recovered from its code, so distinct members have distinct codes and a
      test on the code is a test on the member. */
  lemma CodeRoundTrip(t: EntityType)
    ensures FromCode(t.Code()) == Some(t)
  {
  }

  lemma CodeInjective(t: EntityType, u: EntityType)
    ensures t.Code() == u.Code() <==> t == u
  {
    CodeRoundTrip(t);
    CodeRoundTrip(u);
    if t.Code() == u.Code() {
      assert Some(t) == FromCode(u.Code()) == Some(u);
    }
  }

  /** The origin fields of a Const: the tag and payloads it was built from. */
  datatype Origin = Origin(
    originType: EntityType,
    originStringValue: Option<string>,
    originIntValue: int,
    originFloatingPointValue: Float,
    originBooleanValue: bool)

  /** The four Const constructors: each records one payload and its tag, leaving the other
      origin fields at their defaults. */
  function StringOrigin(s: Option<string>): Origin {
    Origin(String, s, 0, PositiveZero, false)
  }

  function IntegerOrigin(i: int): Origin {
    Origin(Integer, Option.None, i, PositiveZero, false)
  }

  function FloatingPointOrigin(f: Float): Origin {
    Origin(FloatingPoint, Option.None, 0, f, false)
  }

  function BooleanOrigin(b: bool): Origin {
    Origin(Boolean, Option.None, 0, PositiveZero, b)
  }

  /** A token of the lexer's output. */
  datatype Entity =
    | Token(tokenType: EntityType)    // new Entity(type): a symbol or a reserved word
    | Word(content: string)           // new Undefined(content): an identifier
    | Literal(origin: Origin)         // new Const(...): a literal
  {
    /** Entity.Type as the parser sees it; a fresh Const carries its origin tag. */
    function Type(): EntityType {
      match this
      case Token(t) => t
      case Word(_) => Undefined
      case Literal(o) => o.originType
    }
  }
}
