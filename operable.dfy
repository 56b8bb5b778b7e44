/** The runtime value of the interpreter (class Operable, with Const's reset), as a record:
    a tag, the four payload fields and the element list. Every operator of Operable is a
    function from the receiver's state (and the operand's) to the receiver's new state; the
    store in module Store applies them in place. The loops of Operable (Set(Operable), the
    indexer's growth loop, ToString, and the copy loop of Set(IReadOnlyList)) are methods proved
    equal to these functions. */
module Operables {
  import opened Wrappers
  import opened Numerics
  import opened Entities

  /** The fields of one Operable object. Inactive payloads keep whatever was last written. */
  datatype Value = Value(
    valueType: EntityType,
    stringValue: Option<string>,
    intValue: int,
    floatingPointValue: Float,
    booleanValue: bool,
    elements: seq<Value>)

  /** new Operable(type): default payloads, no elements. */
  function NewOperable(t: EntityType): Value {
    Value(t, Option.None, 0, PositiveZero, false, [])
  }

  /** A null string concatenates as the empty string. */
  function Text(s: Option<string>): string {
    if s.Some? then s.value else ""
  }

  /** The shape every value the interpreter builds has: a value tag, the payloads of the
      other tags at their defaults, elements only under the Array tag, an Array's payloads
      at their defaults, an Int64 payload and canonical elements. */
  predicate Canonical(v: Value) {
    && v.valueType.IsValueType()
    && (v.valueType != String ==> v.stringValue == Option.None)
    && (v.valueType != Integer ==> v.intValue == 0)
    && (v.valueType != FloatingPoint ==> v.floatingPointValue == PositiveZero)
    && (v.valueType != Boolean ==> !v.booleanValue)
    && (v.valueType != Array ==> v.elements == [])
    && IsInt64(v.intValue)
    && forall i :: 0 <= i < |v.elements| ==> Canonical(v.elements[i])
  }

  // ------------------------------------------------------------------ Set overloads

  /** The protected Set(type, ..., null): writes the tag and the four payloads and clears the
      element list unless the new tag is Array. */
  function SetFields(v: Value, t: EntityType, s: Option<string>, i: int, f: Float, b: bool): (r: Value)
    ensures r.valueType == t && r.stringValue == s && r.intValue == i
    ensures r.floatingPointValue == f && r.booleanValue == b
    ensures r.elements == (if t == Array then v.elements else [])
  {
    Value(t, s, i, f, b, if t == Array then v.elements else [])
  }

  /** Set(String?). */
  function SetString(v: Value, s: Option<string>): (r: Value)
    ensures r.valueType == String && r.stringValue == s && Canonical(r)
  {
    SetFields(v, String, s, 0, PositiveZero, false).(elements := [])
  }

  /** Set(Int64). */
  function SetInteger(v: Value, i: int): (r: Value)
    requires IsInt64(i)
    ensures r.valueType == Integer && r.intValue == i && Canonical(r)
  {
    SetFields(v, Integer, Option.None, i, PositiveZero, false).(elements := [])
  }

  /** Set(Double). */
  function SetFloatingPoint(v: Value, f: Float): (r: Value)
    ensures r.valueType == FloatingPoint && r.floatingPointValue == f && Canonical(r)
  {
    SetFields(v, FloatingPoint, Option.None, 0, f, false).(elements := [])
  }

  /** Set(Boolean). */
  function SetBoolean(v: Value, b: bool): (r: Value)
    ensures r.valueType == Boolean && r.booleanValue == b && Canonical(r)
  {
    SetFields(v, Boolean, Option.None, 0, PositiveZero, b).(elements := [])
  }

  /** Set(IReadOnlyList): the copy loop of the protected Set runs over the list it has just
      cleared, and the public overload then clears the list once more, so whatever the
      argument, the receiver ends as an empty Array. */
  function SetList(v: Value, list: seq<Value>): (r: Value)
    ensures r.valueType == Array && r.elements == [] && Canonical(r)
  {
    SetFields(v, Array, Option.None, 0, PositiveZero, false).(elements := [])
  }

  /** What Set(Operable) leaves in a receiver that is a different object from its operand:
      the operand's tag and payloads when it has no elements; otherwise an Array with default
      payloads (the indexer resets them) holding a copy of each element. */
  function Copy(v: Value): (r: Value)
    ensures |r.elements| == |v.elements|
    ensures v.elements == [] ==> r == v
    ensures v.elements != [] ==> r.valueType == Array
    decreases v
  {
    if |v.elements| == 0 then v
    else
      Value(Array, Option.None, 0, PositiveZero, false,
            seq(|v.elements|, i requires 0 <= i < |v.elements| => Copy(v.elements[i])))
  }

  /** What Set(Operable) leaves in a receiver that is its own operand: the list is cleared
      before the copy loop reads its count, so the elements are lost. */
  function SetSelf(v: Value): (r: Value)
    ensures r.elements == [] && r.valueType == v.valueType
  {
    v.(elements := [])
  }

  /** Clone(): a fresh Operable set from this one. */
  function Clone(v: Value): (r: Value)
    ensures Canonical(v) ==> r == v
  {
    if Canonical(v) then CopyOfCanonical(v); Copy(v) else Copy(v)
  }

  lemma CopyOfCanonical(v: Value)
    requires Canonical(v)
    ensures Copy(v) == v
    decreases v
  {
    if |v.elements| > 0 {
      forall i | 0 <= i < |v.elements|
        ensures Copy(v.elements[i]) == v.elements[i]
      {
        CopyOfCanonical(v.elements[i]);
      }
    }
  }

  /** The indexer's setter, this[index] = value. */
  function SetItem(v: Value, index: int, value: Option<Value>): (r: Result<Value>)
    ensures r.Ok? ==> r.value.valueType == Array && r.value.stringValue == Option.None
    ensures r.Ok? ==> r.value.intValue == 0 && r.value.floatingPointValue == PositiveZero
    ensures r.Ok? ==> !r.value.booleanValue
    ensures value.Some? ==> (r.Ok? <==> 0 <= index <= |v.elements|)
    ensures value.Some? && 0 <= index < |v.elements| ==>
              r.Ok? && r.value.elements == v.elements[index := Copy(value.value)]
    ensures value.Some? && index == |v.elements| ==>
              r.Ok? && r.value.elements == v.elements + [Copy(value.value)]
  {
    var cleared := SetFields(v, Array, Option.None, 0, PositiveZero, false);
    var count := |v.elements|;
    var grown := if index >= count then cleared.(elements := v.elements + Fill(count - index + 1))
                 else cleared;
    if value.None? then Ok(grown)
    else if 0 <= index < |grown.elements| then
      Ok(grown.(elements := grown.elements[index := Copy(value.value)]))
    else Err(ArgumentOutOfRange)
  }

  /** The elements the growth loop appends: n new Operables, none when n <= 0. */
  function Fill(n: int): (r: seq<Value>)
    ensures |r| == if n <= 0 then 0 else n
    ensures forall i :: 0 <= i < |r| ==> r[i] == NewOperable(Integer)
    decreases n
  {
    if n <= 0 then [] else Fill(n - 1) + [NewOperable(Integer)]
  }

  /** The indexer's getter. */
  function GetItem(v: Value, index: int): (r: Result<Value>)
    ensures r.Ok? <==> 0 <= index < |v.elements|
    ensures r.Ok? ==> r.value == v.elements[index]
  {
    if 0 <= index < |v.elements| then Ok(v.elements[index]) else Err(ArgumentOutOfRange)
  }

  /** Count. */
  function Count(v: Value): nat {
    |v.elements|
  }

  /** The elements a copy loop has produced after i of the operand's elements. */
  function CopiedPrefix(src: Value, i: nat): Value
    requires 0 < i <= |src.elements|
  {
    Value(Array, Option.None, 0, PositiveZero, false,
          seq(i, k requires 0 <= k < i => Copy(src.elements[k])))
  }

  /** Set(Operable) on a receiver different from the operand, as written: copy the tag and
      payloads, clear the list, then assign each element through the indexer. Returns the
      receiver's new state. */
  method SetFrom(src: Value) returns (r: Value)
    ensures r == Copy(src)
    decreases src, 0
  {
    r := Value(src.valueType, src.stringValue, src.intValue, src.floatingPointValue,
               src.booleanValue, []);
    var i := 0;
    while i < |src.elements|
      invariant 0 <= i <= |src.elements|
      invariant i == 0 ==> r == src.(elements := [])
      invariant i > 0 ==> r == CopiedPrefix(src, i)
    {
      var next := SetIndex(r, i, Some(src.elements[i]));
      assert next.Ok?;
      r := next.value;
      assert r.elements == CopiedPrefix(src, i + 1).elements;
      i := i + 1;
    }
  }

  /** The indexer's setter as written: reset to an empty-payload Array, append
      count - index + 1 new elements when index >= count, then set the element. */
  method SetIndex(v: Value, index: int, value: Option<Value>) returns (r: Result<Value>)
    ensures r == SetItem(v, index, value)
    decreases if value.Some? then value.value else v, 1
  {
    var w := Value(Array, Option.None, 0, PositiveZero, false, v.elements);
    var count := |w.elements|;
    if index >= count {
      var i := 0;
      while i < count - index + 1
        invariant 0 <= i && (i <= count - index + 1 || i == 0)
        invariant w == Value(Array, Option.None, 0, PositiveZero, false, v.elements + Fill(i))
      {
        w := w.(elements := w.elements + [NewOperable(Integer)]);
        i := i + 1;
      }
      assert w.elements == v.elements + Fill(count - index + 1);
    }
    if value.Some? {
      if 0 <= index < |w.elements| {
        var e := SetFrom(value.value);
        r := Ok(w.(elements := w.elements[index := e]));
      } else {
        r := Err(ArgumentOutOfRange);
      }
    } else {
      r := Ok(w);
    }
  }

  // ------------------------------------------------------------------ Const

  /** Const.Reset: the protected Set with the origin fields. */
  function ConstReset(v: Value, o: Origin): (r: Value)
    ensures r.valueType == o.originType && r.stringValue == o.originStringValue
    ensures r.intValue == o.originIntValue && r.floatingPointValue == o.originFloatingPointValue
    ensures r.booleanValue == o.originBooleanValue
    ensures o.originType != Array ==> r.elements == []
  {
    SetFields(v, o.originType, o.originStringValue, o.originIntValue,
              o.originFloatingPointValue, o.originBooleanValue)
  }

  /** A Const's state right after its constructor, which calls Reset on a new Operable. */
  function ConstNew(o: Origin): (r: Value)
    ensures r == ConstReset(r, o) && r.elements == []
  {
    ConstReset(NewOperable(Integer), o)
  }

  // ------------------------------------------------------------------ text

  /** ToString(). A null string renders as the empty string; Int64 and Boolean render in
      the invariant culture; an element-less value with a non-value tag renders as "". */
  function Display(fm: FloatModel, v: Value): string
    decreases v, 1
  {
    match v.valueType
    case String => Text(v.stringValue)
    case Integer => DecimalText(v.intValue)
    case FloatingPoint => fm.text(v.floatingPointValue)
    case Boolean => BoolText(v.booleanValue)
    case Array => "{" + Join(fm, v.elements) + "}"
    case _ => ""
  }

  /** The elements' texts separated by ", ". */
  function Join(fm: FloatModel, es: seq<Value>): string
    decreases es, 0
  {
    if |es| == 0 then ""
    else if |es| == 1 then Display(fm, es[0])
    else Join(fm, es[..|es| - 1]) + ", " + Display(fm, es[|es| - 1])
  }

  /** ToString() as written: a StringBuilder loop that appends each element and a separator
      after every element but the last. */
  method ToText(fm: FloatModel, v: Value) returns (s: string)
    ensures s == Display(fm, v)
    decreases v, 1
  {
    if v.valueType == Array {
      s := ArrayText(fm, v);
    } else if v.valueType == String {
      s := Text(v.stringValue);
    } else if v.valueType == Integer {
      s := DecimalText(v.intValue);
    } else if v.valueType == FloatingPoint {
      s := fm.text(v.floatingPointValue);
    } else if v.valueType == Boolean {
      s := BoolText(v.booleanValue);
    } else {
      s := "";
    }
  }

  /** The Array branch of ToString(). */
  method ArrayText(fm: FloatModel, v: Value) returns (s: string)
    ensures s == "{" + Join(fm, v.elements) + "}"
    decreases v, 0
  {
    var es := v.elements;
    s := "{";
    var i := 0;
    while i < |es|
      invariant 0 <= i <= |es|
      invariant s == ArrayPrefix(fm, es, i)
    {
      var e := ToText(fm, es[i]);
      ArrayPrefixStep(fm, es, i);
      s := s + e;
      if i < |es| - 1 {
        s := s + ", ";
      }
      i := i + 1;
    }
    assert es[..|es|] == es;
    s := s + "}";
  }

  /** What the builder holds after i elements. */
  function ArrayPrefix(fm: FloatModel, es: seq<Value>, i: nat): string
    requires i <= |es|
  {
    "{" + Join(fm, es[..i]) + (if 0 < i < |es| then ", " else "")
  }

  lemma ArrayPrefixStep(fm: FloatModel, es: seq<Value>, i: nat)
    requires i < |es|
    ensures ArrayPrefix(fm, es, i + 1) ==
              ArrayPrefix(fm, es, i) + Display(fm, es[i]) + (if i < |es| - 1 then ", " else "")
  {
    JoinSnoc(fm, es, i);
    if i == 0 {
      ArrayPrefixFirst(fm, es);
    } else {
      ArrayPrefixNext(fm, es, i, Join(fm, es[..i]), Display(fm, es[i]));
    }
  }

  lemma ArrayPrefixFirst(fm: FloatModel, es: seq<Value>)
    requires 0 < |es| && Join(fm, es[..1]) == Display(fm, es[0])
    ensures ArrayPrefix(fm, es, 1) == ArrayPrefix(fm, es, 0) + Display(fm, es[0]) + (if 0 < |es| - 1 then ", " else "")
  {
    assert ArrayPrefix(fm, es, 0) == "{" + "" + "";
  }

  lemma ArrayPrefixNext(fm: FloatModel, es: seq<Value>, i: nat, j: string, d: string)
    requires 0 < i < |es| && j == Join(fm, es[..i]) && d == Display(fm, es[i])
    requires Join(fm, es[..i + 1]) == j + ", " + d
    ensures ArrayPrefix(fm, es, i + 1) == ArrayPrefix(fm, es, i) + d + (if i < |es| - 1 then ", " else "")
  {
    assert ArrayPrefix(fm, es, i) == "{" + j + ", ";
  }

  lemma JoinSnoc(fm: FloatModel, es: seq<Value>, i: nat)
    requires i < |es|
    ensures Join(fm, es[..i + 1]) ==
              if i == 0 then Display(fm, es[0]) else Join(fm, es[..i]) + ", " + Display(fm, es[i])
  {
    assert es[..i + 1][..i] == es[..i];
  }

  // ------------------------------------------------------------------ Add

  /** Add(String?). */
  function AddString(v: Value, s: Option<string>): (r: Value)
    ensures Canonical(v) ==> Canonical(r)
    ensures r.elements == v.elements
  {
    match v.valueType
    case Integer =>
      v.(valueType := String, stringValue := Some(DecimalText(v.intValue) + Text(s)), intValue := 0)
    case String => v.(stringValue := Some(Text(v.stringValue) + Text(s)))
    case FloatingPoint =>
      v.(valueType := String, stringValue := Some(DecimalText(v.intValue) + Text(s)),
         floatingPointValue := PositiveZero)
    case Boolean =>
      v.(valueType := String, stringValue := Some(BoolText(v.booleanValue) + Text(s)),
         booleanValue := false)
    case _ => v
  }

  /** Add(Int64): unchecked on an Integer receiver. */
  function AddInteger(fm: FloatModel, v: Value, n: int): (r: Value)
    ensures Canonical(v) ==> Canonical(r)
    ensures r.elements == v.elements && r.valueType == v.valueType
  {
    match v.valueType
    case Integer => v.(intValue := Wrap64(v.intValue + n))
    case String => v.(stringValue := Some(Text(v.stringValue) + DecimalText(n)))
    case FloatingPoint => v.(floatingPointValue := fm.add(v.floatingPointValue, fm.ofInt(n)))
    case _ => v
  }

  /** Add(Double). */
  function AddFloatingPoint(fm: FloatModel, v: Value, f: Float): (r: Value)
    ensures Canonical(v) ==> Canonical(r)
    ensures r.elements == v.elements
  {
    match v.valueType
    case Integer =>
      v.(valueType := FloatingPoint, floatingPointValue := fm.add(fm.ofInt(v.intValue), f), intValue := 0)
    case String => v.(stringValue := Some(Text(v.stringValue) + fm.text(f)))
    case FloatingPoint => v.(floatingPointValue := fm.add(v.floatingPointValue, f))
    case _ => v
  }

  /** Add(Operable): dispatches on the operand's tag; Boolean and Array operands do nothing. */
  function Add(fm: FloatModel, v: Value, operand: Value): (r: Value)
    ensures Canonical(v) ==> Canonical(r)
    ensures r.elements == v.elements
  {
    match operand.valueType
    case String => AddString(v, operand.stringValue)
    case Integer => AddInteger(fm, v, operand.intValue)
    case FloatingPoint => AddFloatingPoint(fm, v, operand.floatingPointValue)
    case _ => v
  }

  // ------------------------------------------------------------------ Sub, Mul, Div, Rem

  predicate IsArithmetic(op: EntityType) {
    op in {EntityType.Minus, EntityType.Mul, EntityType.Div, EntityType.Percent}
  }

  /** `-`, `*`, `/` or `%` between two Int64 values, as C# evaluates them: unchecked `-` and
      `*`, truncating `/` and `%`, which throw for a zero divisor and overflow for
      Int64.MinValue by -1. */
  function IntArith(op: EntityType, x: int, y: int): (r: Result<int>)
    requires IsArithmetic(op)
    ensures IsInt64(x) && r.Ok? ==> IsInt64(r.value)
    ensures r.Err? ==> (op == Div || op == Percent)
  {
    if op == Minus then Ok(Wrap64(x - y))
    else if op == Mul then Ok(Wrap64(x * y))
    else
      if y == 0 then Err(DivideByZero)
      else if x == MinInt64 && y == -1 then Err(Overflow)
      else if IsInt64(x) && IsInt64(y) then
        TruncDivisionInRange(x, y);
        Ok(if op == Div then TruncDiv(x, y) else TruncRem(x, y))
      else Ok(Wrap64(if op == Div then TruncDiv(x, y) else TruncRem(x, y)))
  }

  function FloatArith(fm: FloatModel, op: EntityType, x: Float, y: Float): Float
    requires IsArithmetic(op)
  {
    if op == Minus then fm.sub(x, y)
    else if op == Mul then fm.mul(x, y)
    else if op == Div then fm.div(x, y)
    else fm.rem(x, y)
  }

  /** Sub/Mul/Div/Rem(Int64). */
  function ArithInteger(fm: FloatModel, op: EntityType, v: Value, n: int): (r: Result<Value>)
    requires IsArithmetic(op)
    ensures r.Ok? && Canonical(v) ==> Canonical(r.value)
    ensures r.Ok? ==> r.value.elements == v.elements && r.value.valueType == v.valueType
  {
    match v.valueType
    case Integer =>
      var i :- IntArith(op, v.intValue, n);
      Ok(v.(intValue := i))
    case FloatingPoint =>
      Ok(v.(floatingPointValue := FloatArith(fm, op, v.floatingPointValue, fm.ofInt(n))))
    case _ => Ok(v)
  }

  /** Sub/Mul/Div/Rem(Double): an Integer receiver becomes FloatingPoint. */
  function ArithFloatingPoint(fm: FloatModel, op: EntityType, v: Value, f: Float): (r: Value)
    requires IsArithmetic(op)
    ensures Canonical(v) ==> Canonical(r)
    ensures r.elements == v.elements
  {
    match v.valueType
    case Integer =>
      v.(valueType := FloatingPoint, floatingPointValue := FloatArith(fm, op, fm.ofInt(v.intValue), f),
         intValue := 0)
    case FloatingPoint => v.(floatingPointValue := FloatArith(fm, op, v.floatingPointValue, f))
    case _ => v
  }

  /** Sub/Mul/Div/Rem(Operable): only Integer and FloatingPoint operands do anything. */
  function Arith(fm: FloatModel, op: EntityType, v: Value, operand: Value): (r: Result<Value>)
    requires IsArithmetic(op)
    ensures r.Ok? && Canonical(v) ==> Canonical(r.value)
    ensures r.Ok? ==> r.value.elements == v.elements
  {
    match operand.valueType
    case Integer => ArithInteger(fm, op, v, operand.intValue)
    case FloatingPoint => Ok(ArithFloatingPoint(fm, op, v, operand.floatingPointValue))
    case _ => Ok(v)
  }

  // ------------------------------------------------------------------ Equal

  /** The receiver becomes the Boolean b; the payload of its former tag is reset. */
  function BecomeBoolean(v: Value, b: bool): (r: Value)
    requires v.valueType in {String, Integer, FloatingPoint, Boolean}
    ensures Canonical(v) ==> Canonical(r)
    ensures r.valueType == Boolean && r.booleanValue == b && r.elements == v.elements
  {
    match v.valueType
    case String => v.(valueType := Boolean, booleanValue := b, stringValue := Option.None)
    case Integer => v.(valueType := Boolean, booleanValue := b, intValue := 0)
    case FloatingPoint => v.(valueType := Boolean, booleanValue := b, floatingPointValue := PositiveZero)
    case Boolean => v.(booleanValue := b)
  }

  predicate IsScalarType(t: EntityType) {
    t in {String, Integer, FloatingPoint, Boolean}
  }

  /** Equal(string?). */
  function EqualString(fm: FloatModel, v: Value, s: Option<string>): (r: Value)
    ensures Canonical(v) ==> Canonical(r)
    ensures r.elements == v.elements
  {
    match v.valueType
    case String => BecomeBoolean(v, v.stringValue == s)
    case Integer => BecomeBoolean(v, Some(DecimalText(v.intValue)) == s)
    case FloatingPoint => BecomeBoolean(v, Some(fm.text(v.floatingPointValue)) == s)
    case Boolean => BecomeBoolean(v, Some(BoolText(v.booleanValue)) == s)
    case _ => v
  }

  /** Equal(Int64). */
  function EqualInteger(fm: FloatModel, v: Value, n: int): (r: Value)
    ensures Canonical(v) ==> Canonical(r)
    ensures r.elements == v.elements
  {
    match v.valueType
    case String => BecomeBoolean(v, v.stringValue == Some(DecimalText(n)))
    case Integer => BecomeBoolean(v, v.intValue == n)
    case FloatingPoint => BecomeBoolean(v, fm.near(v.floatingPointValue, fm.ofInt(n)))
    case Boolean => BecomeBoolean(v, v.booleanValue == IntToBool(n))
    case _ => v
  }

  /** Equal(Double). */
  function EqualFloatingPoint(fm: FloatModel, v: Value, f: Float): (r: Value)
    ensures Canonical(v) ==> Canonical(r)
    ensures r.elements == v.elements
  {
    match v.valueType
    case String => BecomeBoolean(v, v.stringValue == Some(fm.text(f)))
    case Integer => BecomeBoolean(v, fm.near(fm.ofInt(v.intValue), f))
    case FloatingPoint => BecomeBoolean(v, fm.near(v.floatingPointValue, f))
    case Boolean => BecomeBoolean(v, v.booleanValue == fm.isNonZero(f))
    case _ => v
  }

  /** Equal(Boolean). */
  function EqualBoolean(fm: FloatModel, v: Value, b: bool): (r: Value)
    ensures Canonical(v) ==> Canonical(r)
    ensures r.elements == v.elements
  {
    match v.valueType
    case String => BecomeBoolean(v, v.stringValue == Some(BoolText(b)))
    case Integer => BecomeBoolean(v, IntToBool(v.intValue) == b)
    case FloatingPoint => BecomeBoolean(v, fm.isNonZero(v.floatingPointValue) == b)
    case Boolean => BecomeBoolean(v, v.booleanValue == b)
    case _ => v
  }

  /** Equal(Operable): dispatches on the operand's tag; an Array operand does nothing. */
  function Equal(fm: FloatModel, v: Value, operand: Value): (r: Value)
    ensures Canonical(v) ==> Canonical(r)
    ensures r.elements == v.elements
  {
    match operand.valueType
    case String => EqualString(fm, v, operand.stringValue)
    case Integer => EqualInteger(fm, v, operand.intValue)
    case FloatingPoint => EqualFloatingPoint(fm, v, operand.floatingPointValue)
    case Boolean => EqualBoolean(fm, v, operand.booleanValue)
    case _ => v
  }

  // ------------------------------------------------------------------ Greater, Less, GEqual, LEqual

  predicate IsOrdering(op: EntityType) {
    op in {EntityType.Greater, EntityType.Less, EntityType.GEqual, EntityType.LEqual}
  }

  function IntOrder(op: EntityType, x: int, y: int): bool
    requires IsOrdering(op)
  {
    if op == Greater then x > y
    else if op == Less then x < y
    else if op == GEqual then x >= y
    else x <= y
  }

  function FloatOrder(fm: FloatModel, op: EntityType, x: Float, y: Float): bool
    requires IsOrdering(op)
  {
    if op == Greater then fm.greater(x, y)
    else if op == Less then fm.less(x, y)
    else if op == GEqual then fm.greaterOrEqual(x, y)
    else fm.lessOrEqual(x, y)
  }

  /** Greater/Less/GEqual/LEqual(Int64). */
  function OrderInteger(fm: FloatModel, op: EntityType, v: Value, n: int): (r: Value)
    requires IsOrdering(op)
    ensures Canonical(v) ==> Canonical(r)
    ensures r.elements == v.elements
  {
    match v.valueType
    case Integer => BecomeBoolean(v, IntOrder(op, v.intValue, n))
    case FloatingPoint => BecomeBoolean(v, FloatOrder(fm, op, v.floatingPointValue, fm.ofInt(n)))
    case _ => v
  }

  /** Greater/Less/GEqual/LEqual(Double). */
  function OrderFloatingPoint(fm: FloatModel, op: EntityType, v: Value, f: Float): (r: Value)
    requires IsOrdering(op)
    ensures Canonical(v) ==> Canonical(r)
    ensures r.elements == v.elements
  {
    match v.valueType
    case Integer => BecomeBoolean(v, FloatOrder(fm, op, fm.ofInt(v.intValue), f))
    case FloatingPoint => BecomeBoolean(v, FloatOrder(fm, op, v.floatingPointValue, f))
    case _ => v
  }

  /** Greater/Less/GEqual/LEqual(Operable): only Integer and FloatingPoint operands. */
  function Order(fm: FloatModel, op: EntityType, v: Value, operand: Value): (r: Value)
    requires IsOrdering(op)
    ensures Canonical(v) ==> Canonical(r)
    ensures r.elements == v.elements
  {
    match operand.valueType
    case Integer => OrderInteger(fm, op, v, operand.intValue)
    case FloatingPoint => OrderFloatingPoint(fm, op, v, operand.floatingPointValue)
    case _ => v
  }

  // ------------------------------------------------------------------ And, Or

  /** And(Operable): only a Boolean receiver changes; the operand's boolean payload is read
      whatever its tag. */
  function And(v: Value, operand: Value): (r: Value)
    ensures Canonical(v) ==> Canonical(r)
    ensures r.valueType == v.valueType && r.elements == v.elements
  {
    if v.valueType == Boolean then v.(booleanValue := v.booleanValue && operand.booleanValue) else v
  }

  /** Or(Operable). */
  function Or(v: Value, operand: Value): (r: Value)
    ensures Canonical(v) ==> Canonical(r)
    ensures r.valueType == v.valueType && r.elements == v.elements
  {
    if v.valueType == Boolean then v.(booleanValue := v.booleanValue || operand.booleanValue) else v
  }
}
