/** The coercion table of Operable's operators, case by case, and what Const's reset
    guarantees. */
module OperableProperties {
  import opened Wrappers
  import opened Numerics
  import opened Entities
  import opened Operables

  /** An Integer value as the interpreter builds it. */
  function IntValue(n: int): Value {
    Value(Integer, Option.None, n, PositiveZero, false, [])
  }

  // ------------------------------------------------------------------ Set

  /** Every scalar Set writes a value that does not depend on the receiver's old state: its
      tag and payload, the other payloads at their defaults and no elements. */
  lemma ScalarSetsForget(v: Value, w: Value, s: Option<string>, i: int, f: Float, b: bool)
    requires IsInt64(i)
    ensures SetString(v, s) == SetString(w, s) == Value(String, s, 0, PositiveZero, false, [])
    ensures SetInteger(v, i) == SetInteger(w, i) == Value(Integer, Option.None, i, PositiveZero, false, [])
    ensures SetFloatingPoint(v, f) == SetFloatingPoint(w, f) == Value(FloatingPoint, Option.None, 0, f, false, [])
    ensures SetBoolean(v, b) == SetBoolean(w, b) == Value(Boolean, Option.None, 0, PositiveZero, b, [])
  {
  }

  /** Set(IReadOnlyList) loses the list it is given: the result is the same empty Array for
      any two lists. */
  lemma SetListForgets(v: Value, list1: seq<Value>, list2: seq<Value>)
    ensures SetList(v, list1) == SetList(v, list2) == Value(Array, Option.None, 0, PositiveZero, false, [])
  {
  }

  // ------------------------------------------------------------------ Add

  /** Add(Operable), case by case. */
  lemma AddCases(fm: FloatModel, v: Value, o: Value)
    ensures v.valueType == Integer && o.valueType == Integer ==>
              Add(fm, v, o) == v.(intValue := Wrap64(v.intValue + o.intValue))
    ensures v.valueType == String && o.valueType == String ==>
              Add(fm, v, o) == v.(stringValue := Some(Text(v.stringValue) + Text(o.stringValue)))
    ensures v.valueType == String && o.valueType == Integer ==>
              Add(fm, v, o) == v.(stringValue := Some(Text(v.stringValue) + DecimalText(o.intValue)))
    ensures v.valueType == Integer && o.valueType == String ==>
              Add(fm, v, o) == v.(valueType := String, stringValue := Some(DecimalText(v.intValue) + Text(o.stringValue)), intValue := 0)
    ensures v.valueType == Boolean && o.valueType == String ==>
              Add(fm, v, o) == v.(valueType := String, stringValue := Some(BoolText(v.booleanValue) + Text(o.stringValue)), booleanValue := false)
    ensures o.valueType in {Boolean, Array} ==> Add(fm, v, o) == v
    ensures v.valueType in {Boolean, Array} && o.valueType in {Integer, FloatingPoint} ==> Add(fm, v, o) == v
  {
  }

  /** Integer addition wraps around at 64 bits: Int64.MaxValue + 1 is Int64.MinValue. */
  lemma AddWraps(fm: FloatModel)
    ensures Add(fm, IntValue(MaxInt64), IntValue(1)) == IntValue(MinInt64)
  {
  }

  // ------------------------------------------------------------------ Sub, Mul, Div, Rem

  /** Sub/Mul/Div/Rem change only an Integer or FloatingPoint receiver, and only for an
      Integer or FloatingPoint operand; Integer with Integer stays Integer and follows C#'s
      Int64 arithmetic; a zero Integer divisor of an Integer fails. */
  lemma ArithCases(fm: FloatModel, op: EntityType, v: Value, o: Value)
    requires IsArithmetic(op)
    ensures !(v.valueType in {Integer, FloatingPoint} && o.valueType in {Integer, FloatingPoint}) ==>
              Arith(fm, op, v, o) == Ok(v)
    ensures v.valueType == Integer && o.valueType == Integer ==>
              && (Arith(fm, op, v, o).Ok? <==> IntArith(op, v.intValue, o.intValue).Ok?)
              && (Arith(fm, op, v, o).Ok? ==> Arith(fm, op, v, o).value == v.(intValue := IntArith(op, v.intValue, o.intValue).value))
    ensures v.valueType == Integer && o.valueType == Integer && op in {Div, Percent} && o.intValue == 0 ==>
              Arith(fm, op, v, o) == Err(DivideByZero)
    ensures v.valueType == Integer && o.valueType == FloatingPoint ==>
              Arith(fm, op, v, o).Ok? && Arith(fm, op, v, o).value.valueType == FloatingPoint
              && Arith(fm, op, v, o).value.intValue == 0
  {
  }

  /** Int64 division and remainder truncate towards zero, the remainder taking the
      dividend's sign: -7 / 2 is -3 and -7 % 2 is -1 (Euclidean division would give -4
      and 1). */
  lemma DivisionTruncates(fm: FloatModel)
    ensures Arith(fm, Div, IntValue(-7), IntValue(2)) == Ok(IntValue(-3))
    ensures Arith(fm, Percent, IntValue(-7), IntValue(2)) == Ok(IntValue(-1))
    ensures Arith(fm, Percent, IntValue(7), IntValue(-2)) == Ok(IntValue(1))
  {
    QuotientOfSevenByTwo(fm);
    RemainderOfSevenByTwo(fm, -7, 2, -1);
    RemainderOfSevenByTwo(fm, 7, -2, 1);
  }

  lemma QuotientOfSevenByTwo(fm: FloatModel)
    ensures Arith(fm, Div, IntValue(-7), IntValue(2)) == Ok(IntValue(-3))
  {
    assert TruncDiv(-7, 2) == -3;
  }

  lemma RemainderOfSevenByTwo(fm: FloatModel, x: int, y: int, m: int)
    requires (x, y, m) == (-7, 2, -1) || (x, y, m) == (7, -2, 1)
    ensures Arith(fm, Percent, IntValue(x), IntValue(y)) == Ok(IntValue(m))
  {
    assert TruncRem(x, y) == m;
  }

  /** For Int64 operands that succeed, `/` and `%` satisfy the C# identity
      x == (x / y) * y + x % y with |x % y| < |y|. */
  lemma DivisionIdentity(fm: FloatModel, op: EntityType, v: Value, o: Value)
    requires v.valueType == Integer && o.valueType == Integer && IsInt64(v.intValue) && IsInt64(o.intValue)
    requires o.intValue != 0 && !(v.intValue == MinInt64 && o.intValue == -1)
    ensures Arith(fm, Div, v, o).Ok? && Arith(fm, Percent, v, o).Ok?
    ensures var q := Arith(fm, Div, v, o).value.intValue;
            var m := Arith(fm, Percent, v, o).value.intValue;
            v.intValue == q * o.intValue + m && Abs(m) < Abs(o.intValue)
            && (m == 0 || (m < 0 <==> v.intValue < 0))
  {
    TruncDivision(v.intValue, o.intValue);
    TruncDivisionInRange(v.intValue, o.intValue);
  }

  // ------------------------------------------------------------------ Equal

  /** Equal(Operable), case by case: a scalar receiver becomes a Boolean, and Array on
      either side does nothing. */
  lemma EqualCases(fm: FloatModel, v: Value, o: Value)
    ensures IsScalarType(v.valueType) && IsScalarType(o.valueType) ==>
              Operables.Equal(fm, v, o).valueType == Boolean
    ensures v.valueType == Array || o.valueType == Array ==> Operables.Equal(fm, v, o) == v
    ensures v.valueType == Integer && o.valueType == Integer ==>
              Operables.Equal(fm, v, o) == v.(valueType := Boolean, booleanValue := v.intValue == o.intValue, intValue := 0)
    ensures v.valueType == Integer && o.valueType == String ==>
              Operables.Equal(fm, v, o).booleanValue == (o.stringValue == Some(DecimalText(v.intValue)))
    ensures v.valueType == String && o.valueType == Integer ==>
              Operables.Equal(fm, v, o).booleanValue == (v.stringValue == Some(DecimalText(o.intValue)))
    ensures v.valueType == Boolean && o.valueType == Integer ==>
              Operables.Equal(fm, v, o) == v.(booleanValue := v.booleanValue == (o.intValue != 0))
    ensures v.valueType == Integer && o.valueType == Boolean ==>
              Operables.Equal(fm, v, o).booleanValue == ((v.intValue != 0) == o.booleanValue)
    ensures v.valueType == Boolean && o.valueType == String ==>
              Operables.Equal(fm, v, o) == v.(booleanValue := o.stringValue == Some(BoolText(v.booleanValue)))
    ensures v.valueType == String && o.valueType == Boolean ==>
              Operables.Equal(fm, v, o).booleanValue == (v.stringValue == Some(BoolText(o.booleanValue)))
  {
  }

  /** The text comparison makes `1 == "1"` true and `true == "true"` false. */
  lemma EqualTextExamples(fm: FloatModel)
    ensures Operables.Equal(fm, IntValue(1), Value(String, Some("1"), 0, PositiveZero, false, [])).booleanValue
    ensures !Operables.Equal(fm, Value(Boolean, Option.None, 0, PositiveZero, true, []),
                   Value(String, Some("true"), 0, PositiveZero, false, [])).booleanValue
  {
    assert DecimalText(1) == "1";
    assert BoolText(true) == "True";
  }

  // ------------------------------------------------------------------ ordering and logic

  /** Greater/Less/GEqual/LEqual: Integer with Integer becomes the Boolean outcome with the
      int payload zeroed; a String, Boolean or Array on either side does nothing. */
  lemma OrderCases(fm: FloatModel, op: EntityType, v: Value, o: Value)
    requires IsOrdering(op)
    ensures v.valueType == Integer && o.valueType == Integer ==>
              Order(fm, op, v, o) == v.(valueType := Boolean, booleanValue := IntOrder(op, v.intValue, o.intValue), intValue := 0)
    ensures v.valueType in {String, Boolean, Array} || o.valueType in {String, Boolean, Array} ==>
              Order(fm, op, v, o) == v
  {
  }

  /** And/Or change only a Boolean receiver, combining it with the operand's boolean
      payload whatever the operand's tag. */
  lemma LogicCases(v: Value, o: Value)
    ensures v.valueType != Boolean ==> Operables.And(v, o) == v && Operables.Or(v, o) == v
    ensures v.valueType == Boolean ==>
              Operables.And(v, o) == v.(booleanValue := v.booleanValue && o.booleanValue)
              && Operables.Or(v, o) == v.(booleanValue := v.booleanValue || o.booleanValue)
  {
  }

  // ------------------------------------------------------------------ Const

  /** Each Const constructor records the origin, and the object starts equal to it. */
  lemma ConstructorsStartAtOrigin(s: Option<string>, i: int, f: Float, b: bool)
    ensures ConstNew(StringOrigin(s)) == Value(String, s, 0, PositiveZero, false, [])
    ensures ConstNew(IntegerOrigin(i)) == IntValue(i)
    ensures ConstNew(FloatingPointOrigin(f)) == Value(FloatingPoint, Option.None, 0, f, false, [])
    ensures ConstNew(BooleanOrigin(b)) == Value(Boolean, Option.None, 0, PositiveZero, b, [])
  {
  }

  /** Const.Reset restores the constructed state whatever was done to the object (for a
      non-Array origin, which is all the lexer makes), and so is idempotent. */
  lemma ConstResetRestores(v: Value, o: Origin)
    requires o.originType != Array
    ensures ConstReset(v, o) == ConstNew(o)
    ensures ConstReset(ConstReset(v, o), o) == ConstReset(v, o)
  {
  }

  /** Reset undoes what evaluation does to a literal: after `x + 1` mutated the literal `2`
      into 3, a reset of its origin gives 2 back. */
  lemma ConstResetUndoesAdd(fm: FloatModel)
    ensures ConstReset(Add(fm, ConstNew(IntegerOrigin(2)), IntValue(1)), IntegerOrigin(2)) == IntValue(2)
  {
  }

  // ------------------------------------------------------------------ text

  /** ToString renders an Array as its elements' texts between braces, separated by ", ". */
  lemma DisplayArray(fm: FloatModel, a: Value, b: Value, c: Value)
    ensures Display(fm, Value(Array, Option.None, 0, PositiveZero, false, [a, b, c])) ==
              "{" + Display(fm, a) + ", " + Display(fm, b) + ", " + Display(fm, c) + "}"
  {
    var es := [a, b, c];
    assert es[..2] == [a, b];
    assert es[..2][..1] == [a];
    assert Join(fm, [a]) == Display(fm, a);
    assert Join(fm, [a, b]) == Display(fm, a) + ", " + Display(fm, b);
  }

  /** A nested Array renders with nested braces. */
  lemma DisplayNested(fm: FloatModel)
    ensures Display(fm, Value(Array, Option.None, 0, PositiveZero, false,
                              [IntValue(1), Value(Array, Option.None, 0, PositiveZero, false, [IntValue(2)])])) == "{1, {2}}"
  {
    var inner := Value(Array, Option.None, 0, PositiveZero, false, [IntValue(2)]);
    var es := [IntValue(1), inner];
    assert DecimalText(1) == "1" && DecimalText(2) == "2";
    assert Display(fm, inner) == "{2}";
    assert es[..1] == [IntValue(1)];
    assert Join(fm, es[..1]) == "1";
    assert Join(fm, es) == Join(fm, es[..1]) + ", " + Display(fm, es[1]);
  }

  // ------------------------------------------------------------------ two slips in Operable

  /** Set(IReadOnlyList) as written: a one-element list leaves the receiver an empty Array. */
  lemma SetListDropsElements(v: Value, x: Value)
    ensures Count(SetList(v, [x])) == 0 && |[x]| == 1
  {
  }

  /** Set(IReadOnlyList) as it is evidently meant to work: an Array whose elements, read
      back through the indexer, are the list's. This needs two changes to the code: the copy
      loop appending each element of the argument, and no second Clear after the protected
      Set returns. */
  function SetListIntended(v: Value, list: seq<Value>): (r: Value)
    ensures r.valueType == Array && Count(r) == |list|
    ensures forall i :: 0 <= i < |list| ==> GetItem(r, i) == Ok(list[i])
    ensures r.stringValue == Option.None && r.intValue == 0 && !r.booleanValue
  {
    Value(Array, Option.None, 0, PositiveZero, false, list)
  }

  /** The indexer's setter as written grows the list by count - index + 1 elements, which is
      one element at index == count and none beyond: on an empty Array, this[1] = x throws. */
  lemma SetItemPastEndFails(x: Value)
    ensures SetItem(Value(Array, Option.None, 0, PositiveZero, false, []), 1, Some(x)) == Err(ArgumentOutOfRange)
  {
    assert Fill(0) == [];
  }

  /** The indexer's setter with the growth it is evidently meant to have, index - count + 1
      new elements, so that any index from 0 on can be written. */
  function SetItemIntended(v: Value, index: int, value: Option<Value>): (r: Result<Value>)
    ensures r.Ok? <==> (0 <= index || value.None?)
    ensures r.Ok? ==> r.value.valueType == Array && r.value.stringValue == Option.None
    ensures r.Ok? ==> |v.elements| <= |r.value.elements|
    ensures r.Ok? && 0 <= index ==> |r.value.elements| == if index < |v.elements| then |v.elements| else index + 1
    ensures r.Ok? ==> forall i :: 0 <= i < |v.elements| && i != index ==> r.value.elements[i] == v.elements[i]
    ensures r.Ok? ==> forall i :: |v.elements| <= i < |r.value.elements| && i != index ==>
              r.value.elements[i] == NewOperable(Integer)
    ensures value.Some? && 0 <= index ==> GetItem(r.value, index) == Ok(Copy(value.value))
  {
    var count := |v.elements|;
    var grown := Value(Array, Option.None, 0, PositiveZero, false,
                       if index >= count then v.elements + Fill(index - count + 1) else v.elements);
    if value.None? then Ok(grown)
    else if 0 <= index < |grown.elements| then
      Ok(grown.(elements := grown.elements[index := Copy(value.value)]))
    else Err(ArgumentOutOfRange)
  }

  /** The two setters agree up to one past the end, the only writes Set(Operable) makes, so
      the deep copy is the same under either. */
  lemma SetItemAgreesToEnd(v: Value, index: int, value: Option<Value>)
    requires index <= |v.elements|
    ensures SetItem(v, index, value) == SetItemIntended(v, index, value)
  {
    if index == |v.elements| {
      assert Fill(index - |v.elements| + 1) == Fill(1);
    }
  }
}
